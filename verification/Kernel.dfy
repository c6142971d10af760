/**
 The kernel's tasks as the kernel keeps them: lists threaded through the task records.  Each method does to the
 state machine exactly what the corresponding function of TaskModel says.
 */
module Kernel {
  import opened TaskModel
  import opened TaskInv
  import opened Sequences
  import TaskSlices

  const NULL: int := -1

  function HeadOf(xs: seq<nat>): int {
    if xs == [] then NULL else xs[0]
  }

  function LastOf(xs: seq<nat>): int {
    if xs == [] then NULL else xs[|xs| - 1]
  }

  function AfterOf(xs: seq<nat>, i: nat): int
    requires i < |xs|
  {
    if i + 1 < |xs| then xs[i + 1] else NULL
  }

  /** Following next from head visits exactly xs. */
  ghost predicate Chain(head: int, next: seq<int>, xs: seq<nat>) {
    && head == HeadOf(xs)
    && (forall i :: 0 <= i < |xs| ==> xs[i] < |next| && next[xs[i]] == AfterOf(xs, i))
  }

  /** The ready queues as they are linked, each with its tail. */
  ghost predicate QueuesLinked(head: seq<int>, tail: seq<int>, next: seq<int>, ready: seq<seq<nat>>) {
    && |next| == TASKS && |head| == PRIORITIES && |tail| == PRIORITIES && |ready| == PRIORITIES
    && (forall p :: 0 <= p < PRIORITIES ==> Chain(head[p], next, ready[p]))
    && (forall p :: 0 <= p < PRIORITIES ==> tail[p] == LastOf(ready[p]))
  }

  ghost predicate SendersLinked(head: seq<int>, next: seq<int>, senders: seq<seq<nat>>) {
    && |next| == TASKS && |head| == TASKS && |senders| == TASKS
    && (forall d :: 0 <= d < TASKS ==> Chain(head[d], next, senders[d]))
  }

  /** A chain does not care about the links of tasks outside it. */
  lemma ChainElsewhere(head: int, next: seq<int>, xs: seq<nat>, t: nat, v: int)
    requires Chain(head, next, xs) && t !in xs && t < |next|
    ensures Chain(head, next[t := v], xs)
  {
  }

  lemma ChainAppend(head: int, next: seq<int>, xs: seq<nat>, t: nat)
    requires Chain(head, next, xs) && NoDup(xs) && t !in xs && t < |next|
    ensures xs == [] ==> head == NULL && Chain(t, next[t := NULL], xs + [t])
    ensures xs != [] ==> head != NULL && LastOf(xs) == xs[|xs| - 1] < |next|
                         && Chain(head, next[t := NULL][xs[|xs| - 1] := t], xs + [t])
    ensures LastOf(xs + [t]) == t
  {
    if xs != [] {
      var next', ys := next[t := NULL][xs[|xs| - 1] := t], xs + [t];
      forall i | 0 <= i < |ys|
        ensures ys[i] < |next'| && next'[ys[i]] == AfterOf(ys, i)
      {
        if i + 1 < |xs| {
          assert xs[i] != xs[|xs| - 1] && xs[i] in xs;
        }
      }
    }
  }

  lemma EnqueueLinks(head: seq<int>, tail: seq<int>, next: seq<int>, ready: seq<seq<nat>>, p: nat, t: nat)
    requires QueuesLinked(head, tail, next, ready) && p < PRIORITIES && t < TASKS && NoDup(ready[p])
    requires forall q :: 0 <= q < PRIORITIES ==> t !in ready[q]
    requires forall q, x :: 0 <= q < PRIORITIES && q != p && x in ready[q] ==> x !in ready[p]
    ensures head[p] == NULL <==> ready[p] == []
    ensures ready[p] == [] ==>
              QueuesLinked(head[p := t], tail[p := t], next[t := NULL], ready[p := ready[p] + [t]])
    ensures ready[p] != [] ==>
              && 0 <= tail[p] < |next|
              && QueuesLinked(head, tail[p := t], next[t := NULL][tail[p] := t], ready[p := ready[p] + [t]])
  {
    ChainAppend(head[p], next, ready[p], t);
    forall q | 0 <= q < PRIORITIES && q != p
      ensures Chain(head[q], next[t := NULL], ready[q])
      ensures ready[p] != [] ==> Chain(head[q], next[t := NULL][tail[p] := t], ready[q])
    {
      ChainElsewhere(head[q], next, ready[q], t, NULL);
      if ready[p] != [] {
        assert tail[p] == ready[p][|ready[p]| - 1] && ready[p][|ready[p]| - 1] in ready[p];
        ChainElsewhere(head[q], next[t := NULL], ready[q], tail[p], t);
      }
    }
    hide Chain;
  }

  /** Queues of different priorities have no task in common. */
  lemma QueuesApart(s: State, p: nat)
    requires Shape(s) && QueuesOK(s) && p < PRIORITIES
    ensures NoDup(s.ready[p]) && |s.ready| == PRIORITIES
    ensures forall q, x :: 0 <= q < PRIORITIES && q != p && x in s.ready[q] ==> x !in s.ready[p]
    ensures forall q, x :: 0 <= q < PRIORITIES && x in s.ready[q] ==> x < TASKS && s.tasks[x].priority == q
  {
  }

  ghost predicate StateOK(s: State) {
    Shape(s) && QueuesOK(s) && SendersOK(s)
  }

  class Tasks {
    var tasks: seq<Task>
    var nextReady: seq<int>
    var queueHead: seq<int>
    var queueTail: seq<int>
    var nextTimer: int
    var timerNext: seq<int>
    var senderHead: seq<int>
    var senderNext: seq<int>
    var current: int
    var next: int
    var reschedule: bool
    var clock: nat
    var pidCount: nat

    ghost var ready: seq<seq<nat>>
    ghost var timers: seq<nat>
    ghost var senders: seq<seq<nat>>
    ghost var sent: seq<Letter>
    ghost var handed: seq<Letter>

    /** The state machine's state. */
    ghost function View(): State
      reads this
    {
      State(tasks, ready, timers, senders, if current < 0 then IDLE else current, if next < 0 then IDLE else next,
            reschedule, clock, sent, handed)
    }

    /** The timer list and the queues of senders are linked. */
    ghost predicate OthersLinked()
      reads `nextTimer, `timerNext, `timers, `senderHead, `senderNext, `senders
    {
      && |timerNext| == TASKS && Chain(nextTimer, timerNext, timers)
      && SendersLinked(senderHead, senderNext, senders)
    }

    /** The lists in the records are the lists of the state machine. */
    ghost predicate Linked()
      reads this
    {
      StateOK(View()) && QueuesLinked(queueHead, queueTail, nextReady, ready) && OthersLinked()
    }

    lemma LinkedFacts()
      requires Linked()
      ensures Shape(View()) && QueuesOK(View()) && SendersOK(View()) && |tasks| == TASKS && |ready| == PRIORITIES
      ensures QueuesLinked(queueHead, queueTail, nextReady, ready) && SendersLinked(senderHead, senderNext, senders)
      ensures |timerNext| == TASKS && Chain(nextTimer, timerNext, timers) && OthersLinked() && StateOK(View())
      ensures |nextReady| == TASKS && |queueHead| == PRIORITIES && |queueTail| == PRIORITIES
      ensures |senderHead| == TASKS && |senderNext| == TASKS
      ensures forall t: nat :: t < TASKS ==> tasks[t].priority < PRIORITIES
    {
    }

    lemma FoldLinked()
      requires StateOK(View()) && QueuesLinked(queueHead, queueTail, nextReady, ready) && OthersLinked()
      ensures Linked()
    {
    }

    lemma BeforeEnqueue(t: nat)
      requires Linked() && t < TASKS && !Ready(View(), t)
      ensures var s := View();
              && t < |tasks| && s.ready == ready && Shape(s) && StateOK(Enqueue(s, t)) && tasks[t].priority < |ready|
              && Enqueue(s, t) == s.(ready := ready[tasks[t].priority := ready[tasks[t].priority] + [t]], reschedule := true)
      ensures var p := tasks[t].priority;
              && p < |queueHead| && p < |queueTail| && t < |nextReady|
              && (queueHead[p] == NULL ==>
                    QueuesLinked(queueHead[p := t], queueTail[p := t], nextReady[t := NULL], ready[p := ready[p] + [t]]))
              && (queueHead[p] != NULL ==>
                    && 0 <= queueTail[p] < |nextReady|
                    && QueuesLinked(queueHead, queueTail[p := t], nextReady[t := NULL][queueTail[p] := t],
                                    ready[p := ready[p] + [t]]))
      ensures OthersLinked()
    {
      hide *;
      LinkedFacts();
      ViewIs();
      QueuesEnqueue(View(), t);
      EnqueueIs(View(), t);
      QueuesApart(View(), tasks[t].priority);
      NotReadyIs(View(), t);
      QueuesLengths(queueHead, queueTail, nextReady, ready);
      EnqueueLinks(queueHead, queueTail, nextReady, ready, tasks[t].priority, t);
      StateOKIs(Enqueue(View(), t));
    }

    lemma ViewIs()
      ensures View() == State(tasks, ready, timers, senders, if current < 0 then IDLE else current,
                              if next < 0 then IDLE else next, reschedule, clock, sent, handed)
    {
    }

    /** enqueue_task */
    method EnqueueTask(t: nat)
      requires Linked() && t < TASKS && !Ready(View(), t)
      modifies `nextReady, `queueHead, `queueTail, `reschedule, `ready
      ensures Linked() && View() == Enqueue(old(View()), t)
    {
      hide *;
      BeforeEnqueue(t);
      ViewIs();
      var p := tasks[t].priority;
      nextReady := nextReady[t := NULL];
      if queueHead[p] == NULL {
        queueHead := queueHead[p := t];
        queueTail := queueTail[p := t];
      } else {
        nextReady := nextReady[queueTail[p] := t];
        queueTail := queueTail[p := t];
      }
      reschedule := true;
      ready := ready[p := ready[p] + [t]];
      ViewIs();
      FoldLinked();
    }

    lemma BeforeDequeue(t: nat)
      requires Linked() && t < TASKS
      ensures var s := View();
              && t < |tasks| && s.ready == ready && Shape(s) && StateOK(Dequeue(s, t)) && tasks[t].priority < |ready|
              && Dequeue(s, t) == (if t in ready[tasks[t].priority] then
                                     s.(ready := ready[tasks[t].priority := Without(ready[tasks[t].priority], t)],
                                        reschedule := reschedule || t == s.current || t == s.next)
                                   else s)
      ensures var p := tasks[t].priority;
              && p < |queueHead| && p < |queueTail| && t < |nextReady| && NoDup(ready[p])
              && queueHead[p] == HeadOf(ready[p]) && queueTail[p] == LastOf(ready[p])
              && (forall i :: 0 <= i < |ready[p]| ==> ready[p][i] < |nextReady| && nextReady[ready[p][i]] == AfterOf(ready[p], i))
      ensures OthersLinked() && QueuesLinked(queueHead, queueTail, nextReady, ready)
    {
      LinkedFacts();
      QueuesDequeue(View(), t);
      QueuesApart(View(), tasks[t].priority);
      assert Chain(queueHead[tasks[t].priority], nextReady, ready[tasks[t].priority]);
      hide Shape;
    }

    lemma UnlinkReady(p: nat, i: nat)
      requires Linked() && p < |ready| && i < |ready[p]|
      ensures var xs := ready[p];
              var t, prev := xs[i], if i == 0 then NULL else xs[i - 1];
              var ready' := ready[p := Without(xs, t)];
              var tail' := if queueTail[p] == t then queueTail[p := prev] else queueTail;
              && t < |nextReady| && p < |queueHead| && p < |queueTail|
              && (prev == NULL ==> QueuesLinked(queueHead[p := nextReady[t]], tail', nextReady[t := NULL], ready'))
              && (prev != NULL ==>
                    0 <= prev < |nextReady| && QueuesLinked(queueHead, tail', nextReady[prev := nextReady[t]][t := NULL], ready'))
    {
      LinkedFacts();
      QueuesApart(View(), p);
      DequeueLinks(queueHead, queueTail, nextReady, ready, p, i);
      WithoutAt(ready[p], i);
      hide Shape, QueuesLinked;
    }

    ghost predicate AtIndex(t: nat, prev: int, i: nat)
      reads this
    {
      && Linked() && t < TASKS && current >= 0 && next >= 0
      && var xs := ready[tasks[t].priority];
      i < |xs| && xs[i] == t && prev == if i == 0 then NULL else xs[i - 1]
    }

    lemma BeforeUnlink(t: nat, prev: int, i: nat)
      requires AtIndex(t, prev, i)
      ensures t < |tasks| && tasks[t].priority < |ready| && Linked() && t < TASKS && Shape(View())
      ensures var p := tasks[t].priority;
              var ready' := ready[p := Without(ready[p], t)];
              var tail' := if queueTail[p] == t then queueTail[p := prev] else queueTail;
              var s' := State(tasks, ready', timers, senders, current, next, reschedule || t == current || t == next,
                              clock, sent, handed);
              && t < |nextReady| && p < |queueHead| && p < |queueTail|
              && (prev == NULL ==> QueuesLinked(queueHead[p := nextReady[t]], tail', nextReady[t := NULL], ready'))
              && (prev != NULL ==>
                    0 <= prev < |nextReady| && QueuesLinked(queueHead, tail', nextReady[prev := nextReady[t]][t := NULL], ready'))
              && Dequeue(View(), t) == s' && StateOK(s')
      ensures OthersLinked()
      ensures current >= 0 && next >= 0
    {
      BeforeDequeue(t);
      UnlinkReady(tasks[t].priority, i);
      hide Linked, QueuesLinked, StateOK, Shape;
    }

    lemma ViewWhenRunning()
      requires current >= 0 && next >= 0
      ensures View() == State(tasks, ready, timers, senders, current, next, reschedule, clock, sent, handed)
    {
    }

    /** Task t, with prev before it in its queue, is taken out. */
    method Unlink(t: nat, prev: int, ghost i: nat)
      requires AtIndex(t, prev, i) && Shape(View()) && t < TASKS
      modifies `nextReady, `queueHead, `queueTail, `reschedule, `ready
      ensures Linked() && View() == Dequeue(old(View()), t)
    {
      hide *;
      BeforeUnlink(t, prev, i);
      var p, after := tasks[t].priority, nextReady[t];
      var links := nextReady;
      if prev == NULL {
        queueHead := queueHead[p := after];
      } else {
        links := links[prev := after];
      }
      nextReady := links[t := NULL];
      if queueTail[p] == t {
        queueTail := queueTail[p := prev];
      }
      if t == current || t == next {
        reschedule := true;
      }
      ready := ready[p := Without(ready[p], t)];
      ViewWhenRunning();
      FoldLinked();
    }

    /** dequeue_task */
    method DequeueTask(t: nat)
      requires Linked() && t < TASKS && current >= 0 && next >= 0
      modifies `nextReady, `queueHead, `queueTail, `reschedule, `ready
      ensures Linked() && View() == Dequeue(old(View()), t)
    {
      hide *;
      LinkedFacts();
      BeforeDequeue(t);
      var p := tasks[t].priority;
      var prev := NULL;
      var cur := queueHead[p];
      ghost var i := 0;
      ghost var xs := ready[p];
      ChainEnds(xs);
      while cur != NULL && cur != t
        invariant 0 <= i <= |xs| && t !in xs[..i]
        invariant cur == (if i < |xs| then xs[i] else NULL) && prev == (if i == 0 then NULL else xs[i - 1])
        decreases |xs| - i
        modifies {}
      {
        AfterIs(xs, i);
        prev := cur;
        cur := nextReady[cur];
        i := i + 1;
      }
      if cur == t {
        AtIndexIs(t, prev, i);
        Unlink(t, prev, i);
      }
    }

    /** scheduler */
    method Scheduler()
      requires Linked()
      modifies `next, `reschedule
      ensures Linked() && View() == Schedule(old(View()))
      ensures old(next) >= 0 || old(reschedule) ==> next >= 0
    {
      hide *;
      LinkedFacts();
      ghost var s := View();
      ViewIs();
      ScheduleIs(s);
      if reschedule {
        reschedule := false;
        next := IDLE;
        var i := 0;
        while i < PRIORITIES && queueHead[i] == NULL
          invariant 0 <= i <= PRIORITIES && forall q :: 0 <= q < i ==> ready[q] == []
          modifies {}
        {
          HeadIs(queueHead, queueTail, nextReady, ready, i);
          i := i + 1;
        }
        TopIs(ready, i);
        if i < PRIORITIES {
          HeadIs(queueHead, queueTail, nextReady, ready, i);
          next := queueHead[i];
        }
        ViewIs();
        ScheduleOK(s);
        FoldLinked();
      }
    }

    /** preempt */
    method PreemptCurrent()
      requires Linked() && InvBut(View(), TASKS) && RunsReady(View()) && 0 <= current < TASKS && current != IDLE && next >= 0
      modifies `nextReady, `queueHead, `queueTail, `reschedule, `ready
      ensures Shape(old(View())) && Shape(Dequeue(old(View()), old(View()).current))
      ensures Linked() && View() == PreemptTask(old(View()), old(View()).current)
    {
      hide *;
      ghost var s := View();
      ViewWhenRunning();
      InvShape(s);
      BeforePreempt(s);
      DequeueTask(current);
      EnqueueTask(current);
    }

    /** The running task uses up a tick. */
    method UseTick()
      requires Linked() && InvBut(View(), TASKS) && Cached(View()) && RunsReady(View()) && 0 <= current < TASKS && next >= 0
      modifies `tasks, `nextReady, `queueHead, `queueTail, `reschedule, `ready
      ensures Shape(old(View())) && Linked() && View() == TickTask(old(View()))
    {
      hide *;
      ghost var s := View();
      LinkedFacts();
      ViewWhenRunning();
      BeforeTick(s);
      if tasks[current].preemptible {
        tasks := tasks[current := tasks[current].(ticksLeft := OneLess(tasks[current].ticksLeft))];
        TwiceSet(s.tasks, tasks, current, OneLess(s.tasks[current].ticksLeft), s.tasks[current].quantum);
        if tasks[current].ticksLeft == 0 {
          tasks := tasks[current := tasks[current].(ticksLeft := tasks[current].quantum)];
          ViewWhenRunning();
          SetTicksIs(s, s.tasks[current].quantum);
          FoldLinked();
          PreemptCurrent();
        } else {
          ViewWhenRunning();
          SetTicksIs(s, OneLess(s.tasks[current].ticksLeft));
          FoldLinked();
        }
      }
    }

    /** The first timer is taken off the list. */
    method PopTimer() returns (t: int)
      requires Linked() && timers != [] && TimersOK(View())
      modifies `nextTimer, `timerNext, `timers
      ensures old(timers) != [] && t == old(timers)[0] && 0 <= t < TASKS
      ensures Linked() && View() == old(View()).(timers := old(timers)[1..])
    {
      hide *;
      LinkedFacts();
      ViewIs();
      TimersNoDup(View());
      t := nextTimer;
      ChainPop(nextTimer, timerNext, timers);
      nextTimer := timerNext[t];
      timerNext := timerNext[t := NULL];
      timers := timers[1..];
      ViewIs();
      FewerTimersOK(old(View()));
      FoldOthers();
      FoldLinked();
    }

    lemma FoldOthers()
      requires |timerNext| == TASKS && Chain(nextTimer, timerNext, timers)
      requires SendersLinked(senderHead, senderNext, senders)
      ensures OthersLinked()
    {
    }

    lemma TimerHead()
      requires Linked()
      ensures nextTimer == NULL <==> timers == []
      ensures timers != [] ==> nextTimer == timers[0] && 0 <= nextTimer < |tasks|
      ensures Shape(View()) && View().timers == timers && View().tasks == tasks && View().clock == clock
    {
    }

    /** The timers that have expired fire. */
    method FireTimers()
      requires Linked() && InvBut(View(), TASKS) && Cached(View()) && current >= 0 && next >= 0
      modifies `nextTimer, `timerNext, `timers, `nextReady, `queueHead, `queueTail, `reschedule, `ready
      ensures Shape(old(View())) && Linked() && View() == Wake(old(View()))
    {
      hide *;
      ghost var s := View();
      InvShape(s);
      TimerHead();
      while nextTimer != NULL && tasks[nextTimer].expire <= clock
        invariant Linked() && InvBut(View(), TASKS) && Cached(View()) && Shape(View()) && Wake(View()) == Wake(s)
        invariant nextTimer == NULL <==> timers == []
        invariant timers != [] ==> nextTimer == timers[0] && 0 <= nextTimer < |tasks|
        decreases |timers|
      {
        ghost var s0 := View();
        ViewIs();
        BeforeWake(s0);
        var tsk := PopTimer();
        EnqueueTask(tsk);
        InvShape(View());
        TimerHead();
      }
      ViewIs();
      WakeDone(View());
    }

    /** timer_callback */
    method TimerCallback()
      requires Linked() && InvBut(View(), TASKS) && Cached(View()) && RunsReady(View()) && 0 <= current < TASKS && next >= 0
      modifies `tasks, `clock, `nextTimer, `timerNext, `timers
      modifies `nextReady, `queueHead, `queueTail, `reschedule, `ready
      ensures Shape(old(View())) && Linked() && View() == TimerTick(old(View()))
      ensures old(Settled(View())) ==> TaskSlices.Paid(old(View()), View())
    {
      hide *;
      ghost var s := View();
      if Settled(s) {
        TaskSlices.TimerTickExact(s);
      }
      InvShape(s);
      LinkedFacts();
      ViewWhenRunning();
      ClockKeeps(s);
      ClockShape(s);
      WordPositive();
      clock := (clock + 1) % WORD;
      ViewWhenRunning();
      InvStateOK(s.(clock := (s.clock + 1) % WORD), TASKS);
      FoldLinked();
      ghost var s1 := View();
      TickKeeps(s1);
      InvShape(TickTask(s1));
      TimerTickIs(s);
      UseTick();
      FireTimers();
    }

    /** sleep_ms */
    method SleepMs(ms: int)
      requires Linked() && Settled(View()) && 0 <= current < TASKS && current != IDLE && next >= 0 && ms <= MAX_MS
      modifies `tasks, `nextTimer, `timerNext, `timers, `nextReady, `queueHead, `queueTail, `reschedule, `ready
      ensures Shape(old(View())) && Linked() && View() == SleepTask(old(View()), ms)
    {
      hide *;
      ghost var s := View();
      SettledMeans(s);
      LinkedFacts();
      ViewWhenRunning();
      SleepIs(s, ms);
      if ms <= 0 {
        return;
      }
      var ticks := (1000 * ms + 999) / 1000;
      WordPositive();
      ticks := (ticks + clock) % WORD;
      BeforeSleep(s, ticks);
      tasks := tasks[current := tasks[current].(expire := ticks)];
      var prev, cur, k := TimerBefore(ticks);
      LinkTimer(prev, cur, k);
      ViewWhenRunning();
      FoldLinked();
      DequeueTask(current);
    }

    /** The walk to the place of a new expiry. */
    method TimerBefore(ticks: nat) returns (prev: int, cur: int, ghost k: nat)
      requires Chain(nextTimer, timerNext, timers) && forall i :: 0 <= i < |timers| ==> timers[i] < |tasks|
      ensures k == TimerPlace(timers, tasks, ticks) && k <= |timers|
      ensures cur == (if k < |timers| then timers[k] else NULL) && prev == (if k == 0 then NULL else timers[k - 1])
    {
      hide *;
      prev := NULL;
      cur := nextTimer;
      k := 0;
      ChainIs(nextTimer, timerNext, timers);
      while cur != NULL && tasks[cur].expire <= ticks
        invariant 0 <= k <= |timers| && forall i :: 0 <= i < k ==> timers[i] < |tasks| && tasks[timers[i]].expire <= ticks
        invariant cur == (if k < |timers| then timers[k] else NULL) && prev == (if k == 0 then NULL else timers[k - 1])
        decreases |timers| - k
      {
        AfterIs(timers, k);
        prev := cur;
        cur := timerNext[cur];
        k := k + 1;
      }
      PlaceIs(timers, tasks, ticks, k);
    }

    /** The running task is linked in between prev and cur. */
    method LinkTimer(prev: int, cur: int, ghost k: nat)
      requires OthersLinked() && 0 <= current < TASKS && NoDup(timers) && current !in timers && k <= |timers|
      requires cur == (if k < |timers| then timers[k] else NULL) && prev == (if k == 0 then NULL else timers[k - 1])
      modifies `nextTimer, `timerNext, `timers
      ensures OthersLinked() && timers == old(timers)[..k] + [current] + old(timers)[k..]
    {
      hide *;
      OthersIs();
      WordPositive();
      ChainInsert(nextTimer, timerNext, timers, k, current);
      timerNext := timerNext[current := cur];
      if prev == NULL {
        nextTimer := current;
      } else {
        timerNext := timerNext[prev := current];
      }
      timers := timers[..k] + [current] + timers[k..];
      FoldOthers();
    }

    lemma OthersIs()
      requires OthersLinked()
      ensures |timerNext| == TASKS && Chain(nextTimer, timerNext, timers) && SendersLinked(senderHead, senderNext, senders)
    {
    }

    /** find_task: the slot with a process id, TASKS if there is none. */
    method FindSlot(pid: int) returns (t: nat)
      requires |tasks| == TASKS
      ensures t == FindTask(tasks, pid)
    {
      if pid == ALL_TASKS || pid == NO_TASK {
        return TASKS;
      }
      t := 0;
      while t < TASKS && tasks[t].pid != pid
        invariant 0 <= t <= TASKS && FirstWithPid(tasks, pid, 0) == FirstWithPid(tasks, pid, t)
      {
        t := t + 1;
      }
    }

    /** The running task is linked in at the end of d's queue of senders. */
    method LinkSender(d: nat)
      requires OthersLinked() && d < |senders| && NoDup(senders[d]) && 0 <= current < TASKS
      requires forall q :: 0 <= q < |senders| ==> current !in senders[q]
      requires forall q, x :: 0 <= q < |senders| && q != d && x in senders[q] ==> x !in senders[d]
      modifies `senderHead, `senderNext, `senders
      ensures d < |old(senders)|
      ensures OthersLinked() && senders == old(senders)[d := old(senders)[d] + [current]]
    {
      hide *;
      OthersIs();
      SendersAt(senderHead, senderNext, senders, d);
      SendersAppend(senderHead, senderNext, senders, d, current);
      ghost var xs := senders[d];
      WordPositive();
      var tsk := senderHead[d];
      if tsk == NULL {
        senderHead := senderHead[d := current];
        senderNext := senderNext[current := NULL];
      } else {
        ghost var i := 0;
        AfterIs(xs, i);
        while senderNext[tsk] != NULL
          invariant 0 <= i < |xs| && tsk == xs[i] && 0 <= tsk < |senderNext| && senderNext[tsk] == AfterOf(xs, i)
          decreases |xs| - i
          modifies {}
        {
          AfterIs(xs, i);
          tsk := senderNext[tsk];
          i := i + 1;
        }
        AfterIs(xs, i);
        senderNext := senderNext[tsk := current];
        senderNext := senderNext[current := NULL];
      }
      senders := senders[d := senders[d] + [current]];
      FoldOthers();
    }

    /** The receiver is waiting for the message. */
    method HandToReceiver(d: nat, message: Message)
      requires Linked() && Settled(View()) && 0 <= current < TASKS && next >= 0 && d < TASKS
      requires Shape(View()) && Accepts(View().tasks[d], View().tasks[current].pid)
      modifies `tasks, `sent, `nextReady, `queueHead, `queueTail, `reschedule, `ready
      ensures Linked() && Shape(old(View())) && Shape(HandOver(old(View()), d, message))
      ensures View() == Enqueue(HandOver(old(View()), d, message), d)
    {
      hide *;
      ghost var s := View();
      LinkedFacts();
      ViewWhenRunning();
      BeforeHandOver(s, d, message);
      tasks := tasks[d := tasks[d].(buffer := message, receiving := false, delivering := true, afterSwitch := true,
                                    origin := current)];
      sent := sent + [Letter(current, d, message)];
      ViewWhenRunning();
      FoldLinked();
      EnqueueTask(d);
    }

    /** It is not: the sender waits. */
    method QueueSender(d: nat, message: Message)
      requires Linked() && Settled(View()) && 0 <= current < TASKS && current != IDLE && next >= 0 && d < TASKS
      modifies `tasks, `senderHead, `senderNext, `senders, `sent
      modifies `nextReady, `queueHead, `queueTail, `reschedule, `ready
      ensures Linked() && Shape(old(View())) && Shape(QueueUp(old(View()), d, message)) && old(View()).current < TASKS
      ensures View() == Dequeue(QueueUp(old(View()), d, message), old(View()).current)
    {
      hide *;
      ghost var s := View();
      SettledMeans(s);
      LinkedFacts();
      ViewWhenRunning();
      BeforeQueueUp(s, d, message);
      ShapeTransfers(s, d, message);
      tasks := tasks[current := tasks[current].(sending := true, sendTo := d, buffer := message)];
      sent := sent + [Letter(current, d, message)];
      LinkSender(d);
      ViewWhenRunning();
      FoldLinked();
      DequeueTask(current);
    }

    /** message_send, up to the value it returns. */
    method MessageSend(dest: int, message: Message) returns (result: int)
      requires Linked() && Settled(View()) && 0 <= current < TASKS && current != IDLE && next >= 0
      modifies `tasks, `senderHead, `senderNext, `senders, `sent
      modifies `nextReady, `queueHead, `queueTail, `reschedule, `ready
      ensures Shape(old(View())) && Linked() && |View().tasks| == TASKS && View().current < TASKS
      ensures SetResult(View(), result) == SendMessage(old(View()), dest, message)
    {
      hide *;
      ghost var s := View();
      SettledMeans(s);
      LinkedFacts();
      ViewWhenRunning();
      SendIs(s, dest, message);
      var d := FindSlot(dest);
      if d == TASKS {
        return -1;
      }
      if Accepts(tasks[d], tasks[current].pid) {
        HandToReceiver(d, message);
      } else {
        QueueSender(d, message);
      }
      result := 0;
      LinkedFacts();
      ViewWhenRunning();
    }

    /** The walk to the first sender the running task wants. */
    method WantedSender(from: int) returns (prev: int, sender: int, ghost k: nat)
      requires Linked() && 0 <= current < |senders| && |tasks| == TASKS
      requires forall i :: 0 <= i < |senders[current]| ==> senders[current][i] < TASKS
      ensures k == FirstMatch(senders[current], tasks, from) && k <= |senders[current]|
      ensures sender == if k < |senders[current]| then senders[current][k] else NULL
      ensures prev == if k == 0 then NULL else senders[current][k - 1]
    {
      hide *;
      LinkedFacts();
      SendersAt(senderHead, senderNext, senders, current);
      WordPositive();
      ghost var xs := senders[current];
      prev := NULL;
      sender := senderHead[current];
      k := 0;
      while sender != NULL && !(from == ALL_TASKS || from == tasks[sender].pid)
        invariant 0 <= k <= |xs| && sender == (if k < |xs| then xs[k] else NULL) && prev == (if k == 0 then NULL else xs[k - 1])
        invariant forall j :: 0 <= j < k ==> xs[j] < |tasks| && from != ALL_TASKS && from != tasks[xs[j]].pid
        decreases |xs| - k
      {
        AfterIs(xs, k);
        prev := sender;
        sender := senderNext[sender];
        k := k + 1;
      }
      MatchIs(xs, tasks, from, k);
    }

    /** The k-th sender in the running task's queue is taken out. */
    method UnlinkSender(prev: int, sender: int, ghost k: nat)
      requires OthersLinked() && 0 <= current < |senders| && NoDup(senders[current]) && k < |senders[current]|
      requires forall q, x :: 0 <= q < |senders| && q != current && x in senders[q] ==> x !in senders[current]
      requires sender == senders[current][k] && prev == if k == 0 then NULL else senders[current][k - 1]
      modifies `senderHead, `senderNext, `senders
      ensures 0 <= current < |old(senders)| && k < |old(senders)[current]|
      ensures OthersLinked()
      ensures senders == old(senders)[current := old(senders)[current][..k] + old(senders)[current][k + 1..]]
    {
      hide *;
      OthersIs();
      SendersAt(senderHead, senderNext, senders, current);
      SendersRemove(senderHead, senderNext, senders, current, k);
      WordPositive();
      var after := senderNext[sender];
      if prev == NULL {
        senderHead := senderHead[current := after];
      } else {
        senderNext := senderNext[prev := after];
      }
      senderNext := senderNext[sender := NULL];
      senders := senders[current := senders[current][..k] + senders[current][k + 1..]];
      FoldOthers();
    }

    /** The k-th queued sender's message is fetched and the sender goes on. */
    method FetchFrom(prev: int, sender: int, ghost k: nat)
      requires Linked() && Settled(View()) && Shape(View()) && 0 <= current < TASKS && next >= 0
      requires |senders| == TASKS && k < |senders[current]| && sender == senders[current][k]
      requires prev == if k == 0 then NULL else senders[current][k - 1]
      modifies `tasks, `senderHead, `senderNext, `senders, `handed
      modifies `nextReady, `queueHead, `queueTail, `reschedule, `ready
      ensures k < |old(View()).senders[old(View()).current]| && old(View()).senders[old(View()).current][k] < TASKS
      ensures Shape(Take(old(View()), k)) && Linked()
      ensures View() == Enqueue(Take(old(View()), k), old(View()).senders[old(View()).current][k])
    {
      hide *;
      ghost var s := View();
      LinkedFacts();
      ViewWhenRunning();
      BeforeTake(s, k);
      handed := handed + [Letter(sender, current, tasks[sender].buffer)];
      UnlinkSender(prev, sender, k);
      tasks := tasks[sender := tasks[sender].(sending := false, sendTo := -1)];
      ViewWhenRunning();
      FoldLinked();
      EnqueueTask(sender);
    }

    /** message_receive, up to the value it returns. */
    method MessageReceive(from: int, pointer: nat) returns (result: int)
      requires Linked() && Settled(View()) && 0 <= current < TASKS && current != IDLE && next >= 0
      modifies `tasks, `senderHead, `senderNext, `senders, `handed
      modifies `nextReady, `queueHead, `queueTail, `reschedule, `ready
      ensures Shape(old(View())) && Linked() && |View().tasks| == TASKS && View().current < TASKS
      ensures SetResult(View(), result) == ReceiveMessage(old(View()), from, pointer)
    {
      hide *;
      ghost var s := View();
      SettledMeans(s);
      LinkedFacts();
      ViewWhenRunning();
      ReceiveIs(s, from, pointer);
      if from == NO_TASK {
        return -1;
      }
      var prev, sender, k := WantedSender(from);
      WordPositive();
      if sender != NULL {
        FetchFrom(prev, sender, k);
      } else {
        BeforeAwait(s, from, pointer);
        tasks := tasks[current := tasks[current].(pointer := pointer, recPid := from, receiving := true)];
        ViewWhenRunning();
        FoldLinked();
        DequeueTask(current);
      }
      result := 0;
      LinkedFacts();
      ViewWhenRunning();
    }

    /** message_deliver */
    method MessageDeliver() returns (delivered: bool)
      requires 0 <= current < |tasks|
      modifies `tasks, `handed
      ensures delivered == old(tasks)[current].delivering && |tasks| == |old(tasks)|
      ensures tasks == if delivered then old(tasks)[current := old(tasks)[current].(buffer := Zeros(), delivering := false,
                                                                                     recPid := NO_TASK, pointer := 0)]
                       else old(tasks)
      ensures handed == if delivered && old(tasks)[current].origin >= 0
                        then old(handed) + [Letter(old(tasks)[current].origin, current, old(tasks)[current].buffer)]
                        else old(handed)
    {
      var t := tasks[current];
      if !t.delivering {
        return false;
      }
      if t.origin >= 0 {
        handed := handed + [Letter(t.origin, current, t.buffer)];
      }
      tasks := tasks[current := t.(buffer := Zeros(), delivering := false, recPid := NO_TASK, pointer := 0)];
      delivered := true;
    }

    /** after_context_switch */
    method AfterContextSwitch()
      requires Linked() && Shape(View()) && StateOK(Deliver(View())) && 0 <= current < TASKS && next >= 0
      modifies `tasks, `handed
      ensures Linked() && View() == Deliver(old(View()))
    {
      hide *;
      ghost var s := View();
      LinkedFacts();
      ViewWhenRunning();
      DeliverIs(s);
      if tasks[current].afterSwitch {
        tasks := tasks[current := tasks[current].(afterSwitch := false)];
        var delivered := MessageDeliver();
        if delivered {
          tasks := tasks[current := tasks[current].(result := 0)];
        }
        ThriceSet(s.tasks, tasks, current, delivered);
      }
      ViewWhenRunning();
      FoldLinked();
    }

    /** handle_kernel_call: the call's answer goes to the caller. */
    method HandleKernelCall(call: Event)
      requires Linked() && Settled(View()) && 0 <= current < TASKS && next >= 0 && !call.Tick? && Enabled(View(), call)
      modifies `tasks, `senderHead, `senderNext, `senders, `sent, `handed, `nextTimer, `timerNext, `timers
      modifies `nextReady, `queueHead, `queueTail, `reschedule, `ready
      ensures Shape(old(View())) && Linked() && View() == Handle(old(View()), call)
    {
      hide *;
      ghost var s := View();
      SettledMeans(s);
      LinkedFacts();
      ViewWhenRunning();
      CallIs(s, call);
      var result := 0;
      match call {
        case Sleep(ms) => SleepMs(ms);
        case Preempt => PreemptCurrent();
        case GetPid => result := tasks[current].pid;
        case Send(dest, contents) => result := MessageSend(dest, contents);
        case Receive(from, pointer) => result := MessageReceive(from, pointer);
        case Other =>
      }
      LinkedFacts();
      ViewWhenRunning();
      ResultIs(View(), result);
      tasks := tasks[current := tasks[current].(result := result)];
      ViewWhenRunning();
      FoldLinked();
    }

    /** What every entry to the kernel ends with. */
    method ResumeTask()
      requires Linked() && InvBut(View(), TASKS) && Cached(View()) && (next >= 0 || reschedule)
      modifies `tasks, `handed, `current, `next, `reschedule
      ensures Shape(old(View())) && Linked() && View() == Resume(old(View())) && 0 <= current < TASKS && next >= 0
    {
      hide *;
      ghost var s := View();
      InvShape(s);
      SwitchKeeps(s);
      BeforeResume(s);
      Scheduler();
      LinkedFacts();
      ViewIs();
      current := next;
      ViewWhenRunning();
      FoldLinked();
      AfterContextSwitch();
    }

    /** One step of the kernel. */
    method StepKernel(e: Event)
      requires Linked() && Settled(View()) && 0 <= current < TASKS && next >= 0 && Enabled(View(), e)
      modifies this
      ensures Shape(old(View())) && Linked() && 0 <= current < TASKS && next >= 0
      ensures View() == Step(old(View()), e) && Settled(View())
    {
      hide *;
      ghost var s := View();
      SettledMeans(s);
      HandleKeeps(s, e);
      StepKeeps(s, e);
      StepTwo(s, e);
      if e.Tick? {
        LinkedFacts();
        TimerCallback();
      } else {
        HandleKernelCall(e);
      }
      ResumeTask();
    }

    /** Before the first switch: the slots in use are the first pidCount ones, those in waiting have been created
        but not started, and nothing has happened yet. */
    ghost predicate Booting(waiting: set<nat>)
      reads this
    {
      && Linked() && BootState(View(), waiting, pidCount) && reschedule
    }

    /** multitasking_init: empty queues and slots, and the idle task in the first slot. */
    constructor ()
      ensures Booting({}) && pidCount == 1 && View() == FirstState()
    {
      tasks := seq(TASKS, _ => BlankTask());
      nextReady, timerNext, senderHead, senderNext := Nulls(TASKS), Nulls(TASKS), Nulls(TASKS), Nulls(TASKS);
      queueHead, queueTail := Nulls(PRIORITIES), Nulls(PRIORITIES);
      nextTimer, current, next := NULL, NULL, NULL;
      reschedule, clock, pidCount := true, 0, 1;
      ready, timers, senders := Empties(PRIORITIES), [], Empties(TASKS);
      sent, handed := [], [];
      new;
      hide *;
      BlankLinks();
      tasks := tasks[IDLE := NewTask(0, PRIORITIES - 1).(preemptible := false)];
      ViewIs();
      FoldOthers();
      FoldBooting();
    }

    lemma FoldBooting()
      requires View() == FirstState() && reschedule && pidCount == 1 && OthersLinked()
      requires QueuesLinked(queueHead, queueTail, nextReady, ready)
      ensures Booting({})
    {
      hide QueuesLinked, OthersLinked, FirstState;
      FirstStateOK();
    }

    /** create_kernel_task, given whether a stack could be allocated: the slot, or -1. */
    method CreateKernelTask(priority: int, gotStack: bool, ghost waiting: set<nat>) returns (t: int)
      requires Booting(waiting) && pidCount >= 1
      modifies `tasks, `pidCount
      ensures t == -1 <==> priority < 0 || priority >= PRIORITIES || old(pidCount) == TASKS || !gotStack
      ensures t == -1 ==> Booting(waiting) && pidCount == old(pidCount) && View() == old(View())
      ensures t != -1 ==> 0 <= t == old(pidCount) && pidCount == t + 1 && Booting(waiting + {t})
      ensures t != -1 ==>
                t < |old(View()).tasks| && 0 <= priority &&
                View() == old(View()).(tasks := old(View()).tasks[t := NewTask(t, priority)])
    {
      t := -1;
      if priority < 0 || priority >= PRIORITIES {
        return;
      }
      var slot := 0;
      while slot < TASKS && tasks[slot].pid != NO_TASK
        invariant 0 <= slot <= pidCount
        modifies {}
      {
        slot := slot + 1;
      }
      if slot < TASKS && gotStack {
        ghost var s := View();
        CreateOK(s, waiting, slot, priority);
        hide BootState, StateOK, QueuesLinked;
        tasks := tasks[slot := NewTask(pidCount, priority)];
        pidCount := pidCount + 1;
        t := slot;
      }
    }

    /** setPreemptible, for a task not yet started. */
    method SetPreemptible(t: nat, preemptible: bool, ghost waiting: set<nat>)
      requires Booting(waiting) && t in waiting
      modifies `tasks
      ensures Booting(waiting) && t < |old(View()).tasks|
      ensures View() == old(View()).(tasks := old(View()).tasks[t := old(View()).tasks[t].(preemptible := preemptible)])
    {
      SetPreemptibleOK(View(), waiting, pidCount, t, preemptible);
      hide BootState, StateOK, QueuesLinked;
      BootSlot(View(), waiting, pidCount, t);
      tasks := tasks[t := tasks[t].(preemptible := preemptible)];
    }

    lemma AtIndexIs(t: nat, prev: int, i: nat)
      requires Linked() && t < TASKS && current >= 0 && next >= 0
      requires |tasks| == TASKS && |ready| == PRIORITIES && tasks[t].priority < PRIORITIES
      requires i < |ready[tasks[t].priority]| && ready[tasks[t].priority][i] == t
      requires prev == if i == 0 then NULL else ready[tasks[t].priority][i - 1]
      ensures AtIndex(t, prev, i)
    {
    }
  }

  lemma ScheduleIs(s: State)
    ensures Schedule(s) == if s.reschedule then s.(reschedule := false, next := Choose(s.ready)) else s
  {
  }

  lemma ScheduleOK(s: State)
    requires StateOK(s)
    ensures StateOK(Schedule(s)) && Choose(s.ready) < TASKS
  {
    ShapeSwitch(s);
  }

  lemma HeadIs(head: seq<int>, tail: seq<int>, next: seq<int>, ready: seq<seq<nat>>, i: nat)
    requires QueuesLinked(head, tail, next, ready) && i < PRIORITIES
    ensures i < |head| && i < |ready| && (head[i] == NULL <==> ready[i] == []) && (ready[i] != [] ==> head[i] == ready[i][0] >= 0)
  {
    assert Chain(head[i], next, ready[i]);
  }

  lemma TopIs(ready: seq<seq<nat>>, i: nat)
    requires |ready| == PRIORITIES && i <= PRIORITIES && forall q :: 0 <= q < i ==> ready[q] == []
    ensures i == PRIORITIES ==> Choose(ready) == IDLE
    ensures i < PRIORITIES && ready[i] != [] ==> Choose(ready) == ready[i][0]
  {
    if i < PRIORITIES && ready[i] != [] {
      TopQueueIs(ready, i);
    }
  }

  lemma BeforePreempt(s: State)
    requires InvBut(s, TASKS) && Shape(s) && RunsReady(s) && s.current != IDLE
    ensures Shape(Dequeue(s, s.current)) && s.current < TASKS && !Ready(Dequeue(s, s.current), s.current)
    ensures PreemptTask(s, s.current) == Enqueue(Dequeue(s, s.current), s.current)
  {
    QueuesDequeue(s, s.current);
  }

  lemma InvStateOK(s: State, x: nat)
    requires InvBut(s, x)
    ensures StateOK(s)
  {
  }

  lemma SetTicksIs(s: State, ticks: nat)
    requires Shape(s)
    ensures s.current < |s.tasks|
    ensures SetTicks(s, ticks) == s.(tasks := s.tasks[s.current := s.tasks[s.current].(ticksLeft := ticks)])
  {
  }

  lemma TwiceSet(tasks: seq<Task>, tasks': seq<Task>, c: nat, a: nat, b: nat)
    requires c < |tasks| && tasks' == tasks[c := tasks[c].(ticksLeft := a)]
    ensures tasks'[c].ticksLeft == a && tasks'[c := tasks'[c].(ticksLeft := b)] == tasks[c := tasks[c].(ticksLeft := b)]
    ensures tasks'[c].quantum == tasks[c].quantum
  {
  }

  lemma BeforeTick(s: State)
    requires InvBut(s, TASKS) && Cached(s) && Shape(s) && RunsReady(s)
    ensures var t := s.tasks[s.current];
            && (t.preemptible ==> s.current != IDLE)
            && (t.preemptible && OneLess(t.ticksLeft) == 0 ==>
                  && Shape(SetTicks(s, t.quantum)) && Shape(Dequeue(SetTicks(s, t.quantum), s.current))
                  && TickTask(s) == PreemptTask(SetTicks(s, t.quantum), s.current)
                  && InvBut(SetTicks(s, t.quantum), TASKS) && RunsReady(SetTicks(s, t.quantum)) && StateOK(SetTicks(s, t.quantum)))
            && (t.preemptible && OneLess(t.ticksLeft) != 0 ==>
                  TickTask(s) == SetTicks(s, OneLess(t.ticksLeft)) && StateOK(SetTicks(s, OneLess(t.ticksLeft))))
            && (!t.preemptible ==> TickTask(s) == s)
  {
    var t := s.tasks[s.current];
    if t.preemptible {
      assert Placed(s, s.current) && 1 <= t.ticksLeft <= t.quantum;
      if OneLess(t.ticksLeft) != 0 {
        TicksKeep(s, OneLess(t.ticksLeft));
        InvStateOK(SetTicks(s, OneLess(t.ticksLeft)), TASKS);
      } else {
        TicksKeep(s, t.quantum);
        InvStateOK(SetTicks(s, t.quantum), TASKS);
        ShapeDequeue(SetTicks(s, t.quantum), s.current);
      }
    }
    hide InvBut, StateOK;
  }

  lemma TimersNoDup(s: State)
    requires Shape(s) && TimersOK(s)
    ensures NoDup(s.timers) && forall i :: 0 <= i < |s.timers| ==> s.timers[i] < TASKS
  {
  }

  lemma ChainPop(head: int, next: seq<int>, xs: seq<nat>)
    requires Chain(head, next, xs) && NoDup(xs) && xs != []
    ensures head == xs[0] && 0 <= head < |next| && Chain(next[head], next[head := NULL], xs[1..])
  {
    ChainRemove(head, next, xs, 0);
    assert xs[..0] + xs[1..] == xs[1..];
  }

  lemma FewerTimersOK(s: State)
    requires StateOK(s) && s.timers != []
    ensures StateOK(s.(timers := s.timers[1..]))
  {
  }

  lemma BeforeWake(s: State)
    requires InvBut(s, TASKS) && Shape(s) && s.timers != [] && s.timers[0] < |s.tasks| && s.tasks[s.timers[0]].expire <= s.clock
    ensures var s1, t := s.(timers := s.timers[1..]), s.timers[0];
            && TimersOK(s) && Shape(s1) && t < TASKS && !Ready(s1, t)
            && InvBut(Enqueue(s1, t), TASKS) && Cached(Enqueue(s1, t)) && Shape(Enqueue(s1, t))
            && Wake(Enqueue(s1, t)) == Wake(s) && Enqueue(s1, t).timers == s.timers[1..]
  {
    TimerLeaves(s);
    EnqueueFills(s.(timers := s.timers[1..]), s.timers[0]);
    hide InvBut, Cached;
  }

  lemma WakeDone(s: State)
    requires Shape(s) && (s.timers == [] || (s.timers[0] < |s.tasks| && s.tasks[s.timers[0]].expire > s.clock))
    ensures Wake(s) == s
  {
  }

  lemma TimerTickIs(s: State)
    requires Shape(s) && Shape(s.(clock := (s.clock + 1) % WORD)) && Shape(TickTask(s.(clock := (s.clock + 1) % WORD)))
    ensures TimerTick(s) == Wake(TickTask(s.(clock := (s.clock + 1) % WORD)))
  {
  }

  lemma WordPositive()
    ensures WORD > 0 && NULL < 0
  {
  }

  lemma SleepIs(s: State, ms: int)
    requires Shape(s)
    ensures ms <= 0 ==> SleepTask(s, ms) == s
    ensures WORD > 0
    ensures ms > 0 ==>
              var e := ((1000 * ms + 999) / 1000 + s.clock) % WORD;
              Shape(SetTimer(s, e)) && s.current < TASKS && SleepTask(s, ms) == Dequeue(SetTimer(s, e), s.current)
  {
    if ms > 0 {
      ShapeTimer(s, Expiry(s.clock, ms));
    }
  }

  lemma BeforeSleep(s: State, e: nat)
    requires Settled(s) && Shape(s) && s.current != IDLE
    ensures s.current < |s.tasks| == TASKS && NoDup(s.timers) && s.current !in s.timers && StateOK(SetTimer(s, e))
    ensures forall i :: 0 <= i < |s.timers| ==> s.timers[i] < TASKS
    ensures var tasks := s.tasks[s.current := s.tasks[s.current].(expire := e)];
            SetTimer(s, e) == s.(tasks := tasks, timers := s.timers[..TimerPlace(s.timers, tasks, e)] + [s.current]
                                                           + s.timers[TimerPlace(s.timers, tasks, e)..])
  {
    ChosenReady(s);
    assert Placed(s, s.current);
    ShapeTimer(s, e);
    SleeperOthers(s, e);
    hide Settled, InvBut;
  }

  lemma ChainIs(head: int, next: seq<int>, xs: seq<nat>)
    requires Chain(head, next, xs)
    ensures head == if 0 < |xs| then xs[0] else NULL
    ensures forall i :: 0 <= i < |xs| ==> xs[i] < |next| && next[xs[i]] == AfterOf(xs, i)
    ensures NULL < 0
  {
  }

  lemma PlaceIs(timers: seq<nat>, tasks: seq<Task>, e: nat, k: nat)
    requires forall i :: 0 <= i < |timers| ==> timers[i] < |tasks|
    requires k <= |timers| && (forall i :: 0 <= i < k ==> tasks[timers[i]].expire <= e)
    requires k < |timers| ==> tasks[timers[k]].expire > e
    ensures TimerPlace(timers, tasks, e) == k
  {
  }

  lemma ChainInsert(head: int, next: seq<int>, xs: seq<nat>, k: nat, t: nat)
    requires Chain(head, next, xs) && NoDup(xs) && t !in xs && t < |next| && k <= |xs|
    ensures var cur, ys := if k < |xs| then xs[k] else NULL, xs[..k] + [t] + xs[k..];
            && (k == 0 ==> Chain(t, next[t := cur], ys))
            && (k > 0 ==> xs[k - 1] < |next| && Chain(head, next[t := cur][xs[k - 1] := t], ys))
  {
    var cur, ys := if k < |xs| then xs[k] else NULL, xs[..k] + [t] + xs[k..];
    var next' := if k > 0 then next[t := cur][xs[k - 1] := t] else next[t := cur];
    forall j | 0 <= j < |ys|
      ensures ys[j] < |next'| && next'[ys[j]] == AfterOf(ys, j)
    {
      ChainInsertAt(head, next, xs, k, t, j);
    }
    hide NoDup, AfterOf;
  }

  lemma ChainInsertAt(head: int, next: seq<int>, xs: seq<nat>, k: nat, t: nat, j: nat)
    requires Chain(head, next, xs) && NoDup(xs) && t !in xs && t < |next| && k <= |xs| && j <= |xs|
    ensures var cur, ys := if k < |xs| then xs[k] else NULL, xs[..k] + [t] + xs[k..];
            && ys[j] < |next| && (k > 0 ==> xs[k - 1] < |next|)
            && (k == 0 ==> next[t := cur][ys[j]] == AfterOf(ys, j))
            && (k > 0 ==> next[t := cur][xs[k - 1] := t][ys[j]] == AfterOf(ys, j))
  {
    hide AfterOf, NoDup;
    InsertedAfter(xs, k, t, j);
    LinkAt(head, next, xs, j);
    if j > 0 {
      LinkAt(head, next, xs, j - 1);
    }
    if k > 0 {
      LinkAt(head, next, xs, k - 1);
      Differ(xs, k - 1, j);
      if j > 0 {
        Differ(xs, k - 1, j - 1);
      }
    }
  }

  lemma Differ(xs: seq<nat>, i: nat, j: nat)
    requires NoDup(xs) && i < |xs|
    ensures j < |xs| && i != j ==> xs[i] != xs[j]
  {
  }

  lemma LinkAt(head: int, next: seq<int>, xs: seq<nat>, j: nat)
    requires Chain(head, next, xs)
    ensures j < |xs| ==> xs[j] < |next| && next[xs[j]] == AfterOf(xs, j) && xs[j] in xs
  {
  }

  lemma InsertedAfter(xs: seq<nat>, k: nat, t: nat, j: nat)
    requires k <= |xs| && j <= |xs| && t !in xs
    ensures var ys := xs[..k] + [t] + xs[k..];
            && |ys| == |xs| + 1 && ys[j] == (if j < k then xs[j] else if j == k then t else xs[j - 1])
            && AfterOf(ys, j) == (if j + 1 == k then t else if j == k then if k < |xs| then xs[k] else NULL
                                  else if j < k then AfterOf(xs, j) else AfterOf(xs, j - 1))
  {
  }

  lemma SendersAt(head: seq<int>, next: seq<int>, senders: seq<seq<nat>>, d: nat)
    requires SendersLinked(head, next, senders) && d < |senders|
    ensures d < |head| && |next| == TASKS && d < TASKS
    ensures head[d] == if 0 < |senders[d]| then senders[d][0] else NULL
    ensures forall i :: 0 <= i < |senders[d]| ==> senders[d][i] < |next| && next[senders[d][i]] == AfterOf(senders[d], i)
  {
    assert Chain(head[d], next, senders[d]);
  }

  lemma SendersAppend(head: seq<int>, next: seq<int>, senders: seq<seq<nat>>, d: nat, t: nat)
    requires SendersLinked(head, next, senders) && d < |senders| && t < TASKS && NoDup(senders[d])
    requires forall q :: 0 <= q < |senders| ==> t !in senders[q]
    requires forall q, x :: 0 <= q < |senders| && q != d && x in senders[q] ==> x !in senders[d]
    ensures d < |head| && t < |next|
    ensures senders[d] == [] ==> SendersLinked(head[d := t], next[t := NULL], senders[d := senders[d] + [t]])
    ensures senders[d] != [] ==>
              var last := senders[d][|senders[d]| - 1];
              last < |next| && SendersLinked(head, next[last := t][t := NULL], senders[d := senders[d] + [t]])
  {
    ChainAppend(head[d], next, senders[d], t);
    if senders[d] != [] {
      var last := senders[d][|senders[d]| - 1];
      assert last in senders[d] && last != t;
      assert next[t := NULL][last := t] == next[last := t][t := NULL];
    }
    forall q | 0 <= q < TASKS && q != d
      ensures Chain(head[q], next[t := NULL], senders[q])
      ensures senders[d] != [] ==> Chain(head[q], next[t := NULL][senders[d][|senders[d]| - 1] := t], senders[q])
    {
      ChainElsewhere(head[q], next, senders[q], t, NULL);
      if senders[d] != [] {
        ChainElsewhere(head[q], next[t := NULL], senders[q], senders[d][|senders[d]| - 1], t);
      }
    }
    hide Chain;
  }

  lemma BeforeHandOver(s: State, d: nat, contents: Message)
    requires Settled(s) && Shape(s) && d < TASKS && Accepts(s.tasks[d], s.tasks[s.current].pid)
    ensures StateOK(HandOver(s, d, contents)) && Shape(HandOver(s, d, contents)) && !Ready(HandOver(s, d, contents), d)
    ensures HandOver(s, d, contents) ==
              s.(tasks := s.tasks[d := s.tasks[d].(buffer := contents, receiving := false, delivering := true,
                                                   afterSwitch := true, origin := s.current)],
                 sent := s.sent + [Letter(s.current, d, contents)])
  {
    ReceiverLeaves(s, d, contents);
    InvStateOK(HandOver(s, d, contents), d);
    hide InvBut, Settled;
  }

  lemma BeforeQueueUp(s: State, d: nat, contents: Message)
    requires Settled(s) && Shape(s) && d < TASKS && s.current != IDLE
    ensures StateOK(QueueUp(s, d, contents)) && |s.senders| == TASKS && NoDup(s.senders[d])
    ensures forall q :: 0 <= q < |s.senders| ==> s.current !in s.senders[q]
    ensures forall q, x :: 0 <= q < |s.senders| && q != d && x in s.senders[q] ==> x !in s.senders[d]
    ensures s.current < |s.tasks|
    ensures QueueUp(s, d, contents) ==
              s.(tasks := s.tasks[s.current := s.tasks[s.current].(sending := true, sendTo := d, buffer := contents)],
                 senders := s.senders[d := s.senders[d] + [s.current]],
                 sent := s.sent + [Letter(s.current, d, contents)])
  {
    ChosenReady(s);
    assert Placed(s, s.current);
    ShapeTransfers(s, d, contents);
    SendersApart(s, d);
    QueueUpOK(s, d, contents);
    hide InvBut, Settled;
  }

  lemma SendersApart(s: State, d: nat)
    requires Shape(s) && SendersOK(s) && d < TASKS && !s.tasks[s.current].sending
    ensures NoDup(s.senders[d]) && forall q :: 0 <= q < TASKS ==> s.current !in s.senders[q]
    ensures forall q, x :: 0 <= q < TASKS && q != d && x in s.senders[q] ==> x !in s.senders[d]
  {
    forall q, x | 0 <= q < TASKS && x in s.senders[q]
      ensures x < TASKS && s.tasks[x].sending && s.tasks[x].sendTo == q
    {
    }
  }

  lemma QueueUpOK(s: State, d: nat, contents: Message)
    requires Shape(s) && QueuesOK(s) && SendersOK(s) && d < TASKS && s.current !in s.senders[d]
    requires forall q :: 0 <= q < TASKS ==> s.current !in s.senders[q]
    requires Shape(QueueUp(s, d, contents))
    ensures StateOK(QueueUp(s, d, contents))
  {
    var s' := QueueUp(s, d, contents);
    assert QueuesOK(s');
    assert NoDup(s'.senders[d]);
  }

  lemma NoMatch(xs: seq<nat>, tasks: seq<Task>, from: int, k: nat, j: nat)
    requires forall i :: 0 <= i < |xs| ==> xs[i] < |tasks|
    requires k <= |xs| && (k > 0 ==> from != ALL_TASKS) && forall j :: 0 <= j < k ==> from != tasks[xs[j]].pid
    ensures j < k ==> from != ALL_TASKS && from != tasks[xs[j]].pid
  {
  }

  lemma {:induction false} MatchIs(xs: seq<nat>, tasks: seq<Task>, from: int, k: nat)
    requires forall i :: 0 <= i < |xs| ==> xs[i] < |tasks|
    requires k <= |xs| && (k < |xs| ==> from == ALL_TASKS || from == tasks[xs[k]].pid)
    requires (k > 0 ==> from != ALL_TASKS) && forall j :: 0 <= j < k ==> from != tasks[xs[j]].pid
    ensures FirstMatch(xs, tasks, from) == k
  {
    NoMatch(xs, tasks, from, k, 0);
    if k > 0 {
      assert forall j :: 0 <= j < |xs| - 1 ==> xs[1..][j] == xs[j + 1];
      MatchIs(xs[1..], tasks, from, k - 1);
    }
  }

  lemma SendersRemove(head: seq<int>, next: seq<int>, senders: seq<seq<nat>>, d: nat, k: nat)
    requires SendersLinked(head, next, senders) && d < |senders| && NoDup(senders[d]) && k < |senders[d]|
    requires forall q, x :: 0 <= q < |senders| && q != d && x in senders[q] ==> x !in senders[d]
    ensures var xs := senders[d];
            var t, senders' := xs[k], senders[d := xs[..k] + xs[k + 1..]];
            && d < |head| && t < |next|
            && (k == 0 ==> SendersLinked(head[d := next[t]], next[t := NULL], senders'))
            && (k > 0 ==> xs[k - 1] < |next| && SendersLinked(head, next[xs[k - 1] := next[t]][t := NULL], senders'))
  {
    var xs := senders[d];
    var t := xs[k];
    ChainRemove(head[d], next, xs, k);
    assert t in xs && (k > 0 ==> xs[k - 1] in xs);
    forall q | 0 <= q < TASKS && q != d
      ensures Chain(head[q], next[t := NULL], senders[q])
      ensures k > 0 ==> Chain(head[q], next[xs[k - 1] := next[t]][t := NULL], senders[q])
    {
      ChainElsewhere(head[q], next, senders[q], t, NULL);
      if k > 0 {
        ChainElsewhere(head[q], next, senders[q], xs[k - 1], next[t]);
        ChainElsewhere(head[q], next[xs[k - 1] := next[t]], senders[q], t, NULL);
      }
    }
    hide Chain;
  }

  lemma ReceiveIs(s: State, from: int, pointer: nat)
    requires Shape(s)
    ensures |s.tasks| == TASKS && |s.senders| == TASKS && s.current < TASKS
    ensures forall i :: 0 <= i < |s.senders[s.current]| ==> s.senders[s.current][i] < TASKS
    ensures var q, k := s.senders[s.current], FirstMatch(s.senders[s.current], s.tasks, from);
            && k <= |q|
            && (from == NO_TASK ==> ReceiveMessage(s, from, pointer) == SetResult(s, -1))
            && (from != NO_TASK && k < |q| ==>
                  && q[k] < TASKS && Shape(Take(s, k)) && Shape(Enqueue(Take(s, k), q[k]))
                  && ReceiveMessage(s, from, pointer) == SetResult(Enqueue(Take(s, k), q[k]), 0))
            && (from != NO_TASK && k == |q| ==>
                  && Shape(Await(s, from, pointer)) && Shape(Dequeue(Await(s, from, pointer), s.current))
                  && ReceiveMessage(s, from, pointer) == SetResult(Dequeue(Await(s, from, pointer), s.current), 0))
  {
    var k := FirstMatch(s.senders[s.current], s.tasks, from);
    ShapeAnswers(s, k, from, pointer);
    if k < |s.senders[s.current]| {
      ShapeEnqueue(Take(s, k), s.senders[s.current][k]);
    }
    ShapeDequeue(Await(s, from, pointer), s.current);
    hide Take, Await, Enqueue, Dequeue;
  }

  lemma BeforeTake(s: State, k: nat)
    requires Settled(s) && Shape(s) && k < |s.senders[s.current]|
    ensures StateOK(Take(s, k)) && Shape(Take(s, k)) && |s.senders| == TASKS && s.current < TASKS
    ensures var c, x := s.current, s.senders[s.current][k];
            && x < TASKS && !Ready(Take(s, k), x) && NoDup(s.senders[c]) && |s.tasks| == TASKS
            && (forall q, y :: 0 <= q < |s.senders| && q != c && y in s.senders[q] ==> y !in s.senders[c])
            && Take(s, k) == s.(tasks := s.tasks[x := s.tasks[x].(sending := false, sendTo := -1)],
                                senders := s.senders[c := s.senders[c][..k] + s.senders[c][k + 1..]],
                                handed := s.handed + [Letter(x, c, s.tasks[x].buffer)])
  {
    SenderLeaves(s, k);
    InvStateOK(Take(s, k), s.senders[s.current][k]);
    SendersOwn(s, s.current);
    hide InvBut, Settled;
  }

  lemma SendersOwn(s: State, d: nat)
    requires Shape(s) && SendersOK(s) && d < TASKS
    ensures NoDup(s.senders[d])
    ensures forall q, x :: 0 <= q < TASKS && q != d && x in s.senders[q] ==> x !in s.senders[d]
  {
    forall q, x | 0 <= q < TASKS && x in s.senders[q]
      ensures x < TASKS && s.tasks[x].sendTo == q
    {
    }
  }

  lemma BeforeAwait(s: State, from: int, pointer: nat)
    requires Settled(s) && Shape(s)
    ensures StateOK(Await(s, from, pointer)) && s.current < |s.tasks|
    ensures Await(s, from, pointer) ==
              s.(tasks := s.tasks[s.current := s.tasks[s.current].(pointer := pointer, recPid := from, receiving := true)])
  {
    ShapeAnswers(s, 0, from, pointer);
    assert Shape(s) && QueuesOK(s) && SendersOK(s);
    hide InvBut, Settled;
  }

  lemma DeliverIs(s: State)
    requires Shape(s)
    ensures s.current < |s.tasks|
    ensures var c, t := s.current, s.tasks[s.current];
            Deliver(s) ==
            if !t.afterSwitch then s
            else if !t.delivering then s.(tasks := s.tasks[c := t.(afterSwitch := false)])
            else s.(tasks := s.tasks[c := t.(afterSwitch := false, delivering := false, buffer := Zeros(), recPid := NO_TASK,
                                             pointer := 0, result := 0)],
                    handed := if t.origin >= 0 then s.handed + [Letter(t.origin, c, t.buffer)] else s.handed)
  {
  }

  /** The steps of a delivery together. */
  lemma ThriceSet(tasks: seq<Task>, tasks': seq<Task>, c: nat, delivered: bool)
    requires c < |tasks|
    requires var t := tasks[c].(afterSwitch := false);
             var t1 := t.(buffer := Zeros(), delivering := false, recPid := NO_TASK, pointer := 0);
             tasks' == if delivered then tasks[c := t][c := t1][c := t1.(result := 0)] else tasks[c := t]
    ensures tasks' == if delivered then tasks[c := tasks[c].(afterSwitch := false, delivering := false, buffer := Zeros(),
                                                             recPid := NO_TASK, pointer := 0, result := 0)]
                      else tasks[c := tasks[c].(afterSwitch := false)]
  {
  }

  lemma CallIs(s: State, e: Event)
    requires Settled(s) && Shape(s) && !e.Tick? && Enabled(s, e)
    ensures InvBut(s, TASKS) && RunsReady(s) && s.current != IDLE && s.current < |s.tasks| == TASKS
    ensures e.Sleep? ==> e.ms <= MAX_MS && Shape(SleepTask(s, e.ms)) && Handle(s, e) == SetResult(SleepTask(s, e.ms), 0)
    ensures e.Preempt? ==> Shape(Dequeue(s, s.current)) && |PreemptTask(s, s.current).tasks| == TASKS
                           && PreemptTask(s, s.current).current == s.current
                           && Handle(s, e) == SetResult(PreemptTask(s, s.current), 0)
    ensures e.GetPid? ==> Handle(s, e) == SetResult(s, s.tasks[s.current].pid)
    ensures e.Send? ==> Handle(s, e) == SendMessage(s, e.dest, e.contents)
    ensures e.Receive? ==> Handle(s, e) == ReceiveMessage(s, e.from, e.pointer)
    ensures e.Other? ==> Handle(s, e) == SetResult(s, 0)
  {
    SettledMeans(s);
    if e.Sleep? {
      ShapeSleep(s, e.ms);
    }
    ShapeDequeue(s, s.current);
    hide SleepTask, SendMessage, ReceiveMessage, Dequeue, InvBut, Settled;
  }

  lemma ResultIs(s: State, r: int)
    requires StateOK(s)
    ensures s.current < |s.tasks| == TASKS && StateOK(SetResult(s, r))
    ensures SetResult(s, r) == s.(tasks := s.tasks[s.current := s.tasks[s.current].(result := r)])
  {
    hide NoDup;
  }

  lemma BeforeResume(s: State)
    requires InvBut(s, TASKS) && Shape(s) && InvBut(Switch(s), TASKS)
    ensures Switch(s) == Schedule(s).(current := Schedule(s).next) && Shape(Switch(s)) && StateOK(Switch(s))
    ensures StateOK(Deliver(Switch(s))) && Resume(s) == Deliver(Switch(s))
    ensures Schedule(s).next < TASKS
  {
    InvStateOK(Switch(s), TASKS);
    DeliverKeeps(Switch(s));
    InvStateOK(Deliver(Switch(s)), TASKS);
    ShapeSwitch(s);
    hide InvBut, StateOK, Deliver, Shape;
  }

  lemma StepTwo(s: State, e: Event)
    requires Settled(s) && Shape(s) && Shape(Handle(s, e)) && Enabled(s, e)
    ensures Step(s, e) == Resume(Handle(s, e)) && (e.Tick? ==> Handle(s, e) == TimerTick(s))
    ensures InvBut(s, TASKS) && Cached(s) && RunsReady(s)
  {
    SettledMeans(s);
    hide Settled, Shape, InvBut;
  }

  function BlankTask(): Task {
    Task(NO_TASK, PRIORITIES - 1, false, false, 0, 0, 0, Zeros(), 0, false, false, false, -1, NO_TASK, 0, -1)
  }

  function NewTask(pid: nat, priority: nat): Task {
    Task(pid, priority, true, false, QUANTUM, QUANTUM, 0, Zeros(), 0, false, false, false, -1, NO_TASK, 0, -1)
  }

  /** The state after multitasking_init. */
  function FirstState(): State {
    State(seq(TASKS, _ => BlankTask())[IDLE := NewTask(0, PRIORITIES - 1).(preemptible := false)],
          Empties(PRIORITIES), [], Empties(TASKS), IDLE, IDLE, true, 0, [], [])
  }

  function Nulls(n: nat): seq<int> {
    seq(n, _ => NULL)
  }

  function Empties(n: nat): seq<seq<nat>> {
    seq(n, _ => [])
  }

  lemma BlankLinks()
    ensures QueuesLinked(Nulls(PRIORITIES), Nulls(PRIORITIES), Nulls(TASKS), Empties(PRIORITIES))
    ensures SendersLinked(Nulls(TASKS), Nulls(TASKS), Empties(TASKS))
    ensures |Nulls(TASKS)| == TASKS && Chain(NULL, Nulls(TASKS), []) && 0 <= IDLE < TASKS && NULL < 0
    ensures FirstState() == State(seq(TASKS, _ => BlankTask())[IDLE := NewTask(0, PRIORITIES - 1).(preemptible := false)],
                                  Empties(PRIORITIES), [], Empties(TASKS), IDLE, IDLE, true, 0, [], [])
  {
  }

  lemma FirstStateOK()
    ensures BootState(FirstState(), {}, 1) && StateOK(FirstState())
  {
  }

  ghost predicate BootState(s: State, waiting: set<nat>, used: nat) {
    && Shape(s) && Lists(s) && 1 <= used <= TASKS
    && (forall t :: 0 <= t < TASKS ==> (s.tasks[t].pid != NO_TASK <==> t < used))
    && (forall t :: t in waiting ==> t < TASKS)
    && (forall t: nat {:trigger Placed(s, t)} :: t < TASKS && t !in waiting ==> Placed(s, t))
    && (forall t: nat {:trigger Unplaced(s, t)} :: t in waiting ==> Unplaced(s, t) && !s.tasks[t].delivering)
    && s.timers == [] && s.sent == [] && s.handed == [] && s.clock == 0
    && (forall t :: 0 <= t < TASKS ==> !s.tasks[t].sending && !s.tasks[t].delivering && !s.tasks[t].receiving)
  }

  lemma BootSlot(s: State, waiting: set<nat>, used: nat, t: nat)
    requires BootState(s, waiting, used) && t in waiting
    ensures t < |s.tasks|
  {
  }

  lemma CreateOK(s: State, waiting: set<nat>, slot: nat, priority: nat)
    requires BootState(s, waiting, slot) && slot < TASKS && priority < PRIORITIES
    ensures slot < |s.tasks|
    ensures var s' := s.(tasks := s.tasks[slot := NewTask(slot, priority)]);
            BootState(s', waiting + {slot}, slot + 1) && StateOK(s')
  {
    var s' := s.(tasks := s.tasks[slot := NewTask(slot, priority)]);
    assert Shape(s');
    forall t | t in waiting
      ensures t < slot
    {
      assert Unplaced(s, t);
    }
    assert Placed(s, slot);
    NotReadyAnywhere(s, slot);
    forall t: nat | t < TASKS && t != slot
      ensures t in waiting ==> Unplaced(s', t)
      ensures t !in waiting ==> Placed(s', t)
    {
      assert t in waiting ==> Unplaced(s, t);
      assert t !in waiting ==> Placed(s, t);
    }
  }

  /** A slot that is not in use is on no queue, whatever its priority. */
  lemma NotReadyAnywhere(s: State, t: nat)
    requires Shape(s) && QueuesOK(s) && t < TASKS && !Ready(s, t)
    ensures forall p, i :: 0 <= p < PRIORITIES && 0 <= i < |s.ready[p]| ==> s.ready[p][i] != t
  {
  }

  lemma SetPreemptibleOK(s: State, waiting: set<nat>, used: nat, t: nat, preemptible: bool)
    requires BootState(s, waiting, used) && t in waiting
    ensures t < |s.tasks|
    ensures var s' := s.(tasks := s.tasks[t := s.tasks[t].(preemptible := preemptible)]);
            BootState(s', waiting, used) && StateOK(s')
  {
    var s' := s.(tasks := s.tasks[t := s.tasks[t].(preemptible := preemptible)]);
    assert Unplaced(s, t);
    assert Shape(s');
    forall x: nat | x < TASKS
      ensures x in waiting ==> Unplaced(s', x)
      ensures x !in waiting ==> Placed(s', x)
    {
      assert x in waiting ==> Unplaced(s, x);
      assert x !in waiting ==> Placed(s, x);
    }
  }

  /** A created task is started. */
  lemma StartOK(s: State, waiting: set<nat>, used: nat, t: nat)
    requires BootState(s, waiting, used) && t in waiting
    ensures Shape(s) && t < TASKS && !Ready(s, t)
    ensures BootState(Enqueue(s, t), waiting - {t}, used)
  {
    assert Unplaced(s, t);
    ListsEnqueue(s, t);
    QueuesEnqueue(s, t);
    var s' := Enqueue(s, t);
    hide Lists;
    forall x: nat | x < TASKS
      ensures x in waiting && x != t ==> Unplaced(s', x)
      ensures x !in waiting || x == t ==> Placed(s', x)
    {
      assert x in waiting ==> Unplaced(s, x);
      assert x !in waiting ==> Placed(s, x);
    }
  }

  lemma BootEnds(s: State, used: nat)
    requires BootState(s, {}, used) && s.reschedule
    ensures InvBut(s, TASKS) && Cached(s) && NothingDue(s) && s.sent == [] && s.handed == [] && s.clock == 0
    ensures forall t: nat :: t < TASKS ==> !s.tasks[t].sending && !s.tasks[t].delivering && !s.tasks[t].receiving
    ensures s.timers == []
  {
  }

  lemma StateOKIs(s: State)
    ensures StateOK(s) <==> Shape(s) && QueuesOK(s) && SendersOK(s)
  {
  }

  lemma NotReadyIs(s: State, t: nat)
    requires Shape(s) && QueuesOK(s) && t < TASKS && !Ready(s, t)
    ensures forall q :: 0 <= q < PRIORITIES ==> t !in s.ready[q]
  {
  }

  lemma QueuesLengths(head: seq<int>, tail: seq<int>, next: seq<int>, ready: seq<seq<nat>>)
    requires QueuesLinked(head, tail, next, ready)
    ensures |next| == TASKS && |head| == PRIORITIES && |tail| == PRIORITIES && |ready| == PRIORITIES
  {
  }

  lemma ChainEnds(xs: seq<nat>)
    ensures HeadOf(xs) == if 0 < |xs| then xs[0] else NULL
    ensures NULL < 0
  {
  }

  lemma AfterIs(xs: seq<nat>, i: nat)
    requires i < |xs|
    ensures AfterOf(xs, i) == if i + 1 < |xs| then xs[i + 1] else NULL
    ensures xs[..i + 1] == xs[..i] + [xs[i]]
  {
  }

  lemma {:induction false} WithoutAt(xs: seq<nat>, i: nat)
    requires NoDup(xs) && i < |xs|
    ensures Without(xs, xs[i]) == xs[..i] + xs[i + 1..]
  {
    if i > 0 {
      WithoutAt(xs[1..], i - 1);
      assert xs[1..][i - 1] == xs[i] && xs[0] != xs[i];
      assert [xs[0]] + (xs[1..][..i - 1] + xs[1..][i..]) == xs[..i] + xs[i + 1..];
    }
  }

  lemma RemovedAfter(xs: seq<nat>, i: nat, j: nat)
    requires i < |xs| && j < |xs| - 1
    ensures var ys := xs[..i] + xs[i + 1..];
            && |ys| == |xs| - 1 && ys[j] == xs[if j < i then j else j + 1]
            && AfterOf(ys, j) == (if j + 1 == i then AfterOf(xs, i) else AfterOf(xs, if j < i then j else j + 1))
  {
  }

  lemma ChainRemove(head: int, next: seq<int>, xs: seq<nat>, i: nat)
    requires Chain(head, next, xs) && NoDup(xs) && i < |xs|
    ensures var t, ys := xs[i], xs[..i] + xs[i + 1..];
            && t < |next|
            && (i == 0 ==> Chain(next[t], next[t := NULL], ys))
            && (i > 0 ==> xs[i - 1] < |next| && Chain(head, next[xs[i - 1] := next[t]][t := NULL], ys))
            && LastOf(ys) == (if LastOf(xs) == t then if i == 0 then NULL else xs[i - 1] else LastOf(xs))
  {
    var t, ys := xs[i], xs[..i] + xs[i + 1..];
    forall j | 0 <= j < |ys|
      ensures ys[j] < |next| && ys[j] != t
      ensures (if i > 0 then next[xs[i - 1] := next[t]][t := NULL] else next[t := NULL])[ys[j]] == AfterOf(ys, j)
    {
      RemovedAfter(xs, i, j);
    }
    RemovedLast(xs, i);
  }

  lemma RemovedLast(xs: seq<nat>, i: nat)
    requires NoDup(xs) && i < |xs|
    ensures LastOf(xs[..i] + xs[i + 1..]) == if LastOf(xs) == xs[i] then if i == 0 then NULL else xs[i - 1] else LastOf(xs)
    ensures HeadOf(xs[..i] + xs[i + 1..]) == if i == 0 then AfterOf(xs, 0) else HeadOf(xs)
  {
  }

  lemma DequeueLinks(head: seq<int>, tail: seq<int>, next: seq<int>, ready: seq<seq<nat>>, p: nat, i: nat)
    requires QueuesLinked(head, tail, next, ready) && p < PRIORITIES && NoDup(ready[p]) && i < |ready[p]|
    requires forall q, x :: 0 <= q < PRIORITIES && q != p && x in ready[q] ==> x !in ready[p]
    ensures var xs := ready[p];
            var t, prev, ready' := xs[i], if i == 0 then NULL else xs[i - 1], ready[p := xs[..i] + xs[i + 1..]];
            var tail' := if tail[p] == t then tail[p := prev] else tail;
            && t < |next|
            && (i == 0 ==> QueuesLinked(head[p := next[t]], tail', next[t := NULL], ready'))
            && (i > 0 ==> 0 <= prev < |next| && QueuesLinked(head, tail', next[prev := next[t]][t := NULL], ready'))
  {
    var xs := ready[p];
    var t := xs[i];
    ChainRemove(head[p], next, xs, i);
    assert t in xs && (i > 0 ==> xs[i - 1] in xs);
    forall q | 0 <= q < PRIORITIES && q != p
      ensures Chain(head[q], next[t := NULL], ready[q])
      ensures i > 0 ==> Chain(head[q], next[xs[i - 1] := next[t]][t := NULL], ready[q])
    {
      ChainElsewhere(head[q], next, ready[q], t, NULL);
      if i > 0 {
        ChainElsewhere(head[q], next, ready[q], xs[i - 1], next[t]);
        ChainElsewhere(head[q], next[xs[i - 1] := next[t]], ready[q], t, NULL);
      }
    }
    hide Chain;
  }

  lemma EnqueueIs(s: State, t: nat)
    requires Shape(s) && SendersOK(s) && t < TASKS && Shape(Enqueue(s, t))
    ensures s.tasks[t].priority < |s.ready|
    ensures Enqueue(s, t) == s.(ready := s.ready[s.tasks[t].priority := s.ready[s.tasks[t].priority] + [t]], reschedule := true)
    ensures SendersOK(Enqueue(s, t))
  {
  }
}
