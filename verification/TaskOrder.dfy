/** First come, first served: sleeping tasks wake and waiting senders are received in the order in which they came. */
module TaskOrder {
  import opened Sequences
  import opened TaskInv
  import opened TaskModel
  import opened TaskRuns

  /** t comes before u. */
  ghost predicate Before(xs: seq<nat>, t: nat, u: nat) {
    exists i, j :: 0 <= i < j < |xs| && xs[i] == t && xs[j] == u
  }

  lemma BeforeAt(xs: seq<nat>, i: nat, j: nat)
    requires i < j < |xs|
    ensures Before(xs, xs[i], xs[j])
  {
  }

  lemma BeforeKept(xs: seq<nat>, ys: seq<nat>, t: nat, u: nat)
    requires Before(xs, t, u) && xs <= ys
    ensures Before(ys, t, u)
  {
    var i, j :| 0 <= i < j < |xs| && xs[i] == t && xs[j] == u;
    assert ys[i] == t && ys[j] == u;
  }

  /** A task inserted into the list changes no other's place before or after others. */
  lemma BeforeInserted(xs: seq<nat>, k: nat, x: nat, t: nat, u: nat)
    requires Before(xs, t, u) && k <= |xs|
    ensures Before(xs[..k] + [x] + xs[k..], t, u)
  {
    var i, j :| 0 <= i < j < |xs| && xs[i] == t && xs[j] == u;
    var ys := xs[..k] + [x] + xs[k..];
    var i', j' := if i < k then i else i + 1, if j < k then j else j + 1;
    assert ys[i'] == t && ys[j'] == u;
  }

  // ----- sleeping tasks

  /** t has left the timer list before u: u is still on it, or, if they have the same priority, is in their queue behind t. */
  ghost predicate InTurn(s: State, t: nat, u: nat)
    requires Shape(s) && t < TASKS && u < TASKS
  {
    var p := s.tasks[t].priority;
    t !in s.timers && (u in s.timers || (s.tasks[u].priority == p ==> Before(s.ready[p], t, u)))
  }

  lemma {:induction false} WakeRest(s: State)
    requires Shape(s)
    ensures forall y :: y in Wake(s).timers ==> y in s.timers
    decreases |s.timers|
  {
    if s.timers != [] && s.tasks[s.timers[0]].expire <= s.clock {
      var s1 := s.(timers := s.timers[1..]);
      ShapeEnqueue(s1, s.timers[0]);
      WakeRest(Enqueue(s1, s.timers[0]));
    }
  }

  lemma {:induction false} WakeBehind(s: State, t: nat, u: nat)
    requires Shape(s) && t < TASKS && u < TASKS && Ready(s, t) && u in s.timers
    ensures Wake(s).tasks == s.tasks && |Wake(s).ready| == PRIORITIES
    ensures u in Wake(s).timers || (s.tasks[u].priority == s.tasks[t].priority ==> Before(Wake(s).ready[s.tasks[t].priority], t, u))
    decreases |s.timers|
  {
    var p := s.tasks[t].priority;
    WakeGrows(s, p);
    if s.tasks[s.timers[0]].expire <= s.clock {
      var x, s1 := s.timers[0], s.(timers := s.timers[1..]);
      var s2 := Enqueue(s1, x);
      ShapeEnqueue(s1, x);
      WakeGrows(s2, p);
      if x == u {
        if s.tasks[u].priority == p {
          var i :| 0 <= i < |s.ready[p]| && s.ready[p][i] == t;
          assert s2.ready[p][i] == t && s2.ready[p][|s.ready[p]|] == u;
          BeforeAt(s2.ready[p], i, |s.ready[p]|);
          BeforeKept(s2.ready[p], Wake(s2).ready[p], t, u);
        }
      } else {
        assert u in s2.timers;
        WakeBehind(s2, t, u);
      }
    }
  }

  /** Timers fire from the front of the list. */
  lemma {:induction false} WakeTurn(s: State, t: nat, u: nat)
    requires Shape(s) && NoDup(s.timers) && t < TASKS && u < TASKS && Before(s.timers, t, u)
    ensures Shape(Wake(s)) && (Before(Wake(s).timers, t, u) || InTurn(Wake(s), t, u))
    decreases |s.timers|
  {
    ShapeWake(s);
    var i, j :| 0 <= i < j < |s.timers| && s.timers[i] == t && s.timers[j] == u;
    if s.tasks[s.timers[0]].expire <= s.clock {
      var x, s1 := s.timers[0], s.(timers := s.timers[1..]);
      var s2 := Enqueue(s1, x);
      ShapeEnqueue(s1, x);
      assert s2.timers[j - 1] == u;
      if i == 0 {
        var p := s.tasks[t].priority;
        assert s2.ready[p][|s.ready[p]|] == t;
        assert t !in s2.timers;
        WakeRest(s2);
        WakeBehind(s2, t, u);
      } else {
        BeforeAt(s2.timers, i - 1, j - 1);
        WakeTurn(s2, t, u);
      }
    }
  }

  lemma TickOrder(s: State, t: nat, u: nat)
    requires InvBut(s, TASKS) && t < TASKS && u < TASKS && Before(s.timers, t, u)
    ensures Shape(TimerTick(s)) && (Before(TimerTick(s).timers, t, u) || InTurn(TimerTick(s), t, u))
  {
    hide *;
    TimersOnce(s);
    ShapeHandle(s, Tick);
    TickIs(s);
    var s1 := s.(clock := (s.clock + 1) % WORD);
    TickList(s1);
    WakeTurn(TickTask(s1), t, u);
  }

  lemma TickIs(s: State)
    requires Shape(s)
    ensures WORD > 0 && var s1 := s.(clock := (s.clock + 1) % WORD); Shape(s1) && Shape(TickTask(s1)) && TimerTick(s) == Wake(TickTask(s1))
  {
    ShapeTick(s.(clock := (s.clock + 1) % WORD));
    hide TickTask, Wake;
  }

  lemma TimersOnce(s: State)
    requires InvBut(s, TASKS)
    ensures Shape(s) && NoDup(s.timers) && Sorted(s.timers, s.tasks)
  {
  }

  lemma TickList(s: State)
    requires Shape(s)
    ensures Shape(TickTask(s)) && TickTask(s).timers == s.timers
  {
    ShapeTick(s);
    var t := s.tasks[s.current];
    if t.preemptible && OneLess(t.ticksLeft) == 0 {
      ShapeDequeue(SetTicks(s, t.quantum), s.current);
    }
  }

  /** Calls of the running task change the timer list by sleeping only. */
  lemma HandleList(s: State, e: Event)
    requires Shape(s) && !e.Tick? && !e.Sleep?
    ensures Shape(Handle(s, e)) && Handle(s, e).timers == s.timers
  {
    ShapeHandle(s, e);
    match e
    case Send(dest, contents) =>
      var d := FindTask(s.tasks, dest);
      if d < TASKS {
        ShapeTransfers(s, d, contents);
        ShapeDequeue(QueueUp(s, d, contents), s.current);
      }
    case Receive(from, pointer) =>
      var k := FirstMatch(s.senders[s.current], s.tasks, from);
      ShapeAnswers(s, k, from, pointer);
      ShapeDequeue(Await(s, from, pointer), s.current);
    case Preempt => ShapeDequeue(s, s.current);
    case _ =>
  }

  lemma SleepList(s: State, ms: int)
    requires Shape(s) && 0 < ms
    ensures Shape(Handle(s, Sleep(ms)))
    ensures var expire := Expiry(s.clock, ms);
            var tasks := s.tasks[s.current := s.tasks[s.current].(expire := expire)];
            var k := TimerPlace(s.timers, tasks, expire);
            Handle(s, Sleep(ms)).timers == s.timers[..k] + [s.current] + s.timers[k..]
  {
    ShapeHandle(s, Sleep(ms));
    ShapeTimer(s, Expiry(s.clock, ms));
    ShapeDequeue(SetTimer(s, Expiry(s.clock, ms)), s.current);
  }

  lemma HandleOrder(s: State, e: Event, t: nat, u: nat)
    requires InvBut(s, TASKS) && t < TASKS && u < TASKS && Before(s.timers, t, u)
    ensures Shape(Handle(s, e)) && (Before(Handle(s, e).timers, t, u) || InTurn(Handle(s, e), t, u))
  {
    TimersOnce(s);
    hide InvBut, Shape, Before, InTurn;
    if e.Tick? {
      TickOrder(s, t, u);
    } else if e.Sleep? && e.ms > 0 {
      SleepList(s, e.ms);
      var expire := Expiry(s.clock, e.ms);
      var k := TimerPlace(s.timers, s.tasks[s.current := s.tasks[s.current].(expire := expire)], expire);
      BeforeInserted(s.timers, k, s.current, t, u);
    } else if e.Sleep? {
      ShapeHandle(s, e);
    } else {
      HandleList(s, e);
    }
  }

  /** Scheduling, the switch and the delivery of a message touch neither the timer list nor the ready queues. */
  lemma ResumeLists(s: State)
    requires Shape(s)
    ensures Shape(Resume(s)) && Resume(s).timers == s.timers && Resume(s).ready == s.ready
    ensures forall t: nat :: t < TASKS ==> Resume(s).tasks[t].priority == s.tasks[t].priority
  {
    ShapeSwitch(s);
  }

  /** Two sleeping tasks keep their order until the first of them wakes; when they wake together it is ready before the other. */
  lemma StepOrder(s: State, e: Event, t: nat, u: nat)
    requires Settled(s) && Enabled(s, e) && t < TASKS && u < TASKS && Before(s.timers, t, u)
    ensures Shape(Step(s, e)) && (Before(Step(s, e).timers, t, u) || InTurn(Step(s, e), t, u))
  {
    hide *;
    SettledMeans(s);
    HandleOrder(s, e, t, u);
    ResumeLists(Handle(s, e));
    StepIs(s, e);
    SameTurn(Handle(s, e), Step(s, e), t, u);
  }

  lemma StepIs(s: State, e: Event)
    requires Shape(s)
    ensures Shape(Handle(s, e)) && Shape(Step(s, e)) && Step(s, e) == Resume(Handle(s, e))
  {
    StepShape(s, e);
    hide Handle, Resume;
  }

  lemma SameTurn(s: State, s': State, t: nat, u: nat)
    requires Shape(s) && Shape(s') && t < TASKS && u < TASKS && s'.timers == s.timers && s'.ready == s.ready
    requires forall t: nat :: t < TASKS ==> s'.tasks[t].priority == s.tasks[t].priority
    ensures InTurn(s', t, u) <==> InTurn(s, t, u)
  {
  }

  /** Over the run u does not wake before t. */
  ghost predicate WakesFirst(s: State, es: seq<Event>, t: nat, u: nat)
    requires Shape(s) && Runnable(s, es) && t < TASKS && u < TASKS
    decreases |es|
  {
    es == [] ||
    (var s' := Step(s, es[0]);
     if Before(s'.timers, t, u) then WakesFirst(s', es[1..], t, u) else InTurn(s', t, u))
  }

  lemma {:induction false} RunWakesFirst(s: State, es: seq<Event>, t: nat, u: nat)
    requires Settled(s) && Shape(s) && Runnable(s, es) && t < TASKS && u < TASKS && Before(s.timers, t, u)
    ensures WakesFirst(s, es, t, u)
    decreases |es|
  {
    if es != [] {
      hide Settled, Shape, Before, InTurn, Step;
      StepKeeps(s, es[0]);
      StepOrder(s, es[0], t, u);
      if Before(Step(s, es[0]).timers, t, u) {
        RunWakesFirst(Step(s, es[0]), es[1..], t, u);
      }
    }
  }

  /** Over every run tasks wake in the order of their expiry, and those with the same expiry in the order in which they went to
      sleep. */
  lemma SleepersInOrder(s: State, ms: int, es: seq<Event>, u: nat)
    requires Settled(s) && s.current != IDLE && 0 < ms <= MAX_MS && u in s.timers && u < TASKS && Shape(s)
    requires Runnable(s, [Sleep(ms)] + es)
    ensures s.current < TASKS && Shape(Step(s, Sleep(ms))) && Runnable(Step(s, Sleep(ms)), es)
    ensures if s.tasks[u].expire <= Expiry(s.clock, ms) then WakesFirst(Step(s, Sleep(ms)), es, u, s.current)
            else WakesFirst(Step(s, Sleep(ms)), es, s.current, u)
  {
    hide *;
    var s', all := Step(s, Sleep(ms)), [Sleep(ms)] + es;
    assert all[1..] == es && all[0] == Sleep(ms);
    SettledMeans(s);
    RunnableFirst(s, all);
    ShapeCurrent(s);
    StepIs(s, Sleep(ms));
    StepKeeps(s, Sleep(ms));
    ResumeLists(Handle(s, Sleep(ms)));
    SleeperPlaced(s, ms, u);
    if s.tasks[u].expire <= Expiry(s.clock, ms) {
      RunWakesFirst(s', es, u, s.current);
    } else {
      RunWakesFirst(s', es, s.current, u);
    }
  }

  lemma ShapeCurrent(s: State)
    requires Shape(s)
    ensures s.current < TASKS && |s.tasks| == TASKS
  {
  }

  lemma RunnableFirst(s: State, es: seq<Event>)
    requires Shape(s) && Runnable(s, es) && es != []
    ensures Enabled(s, es[0]) && Shape(Step(s, es[0])) && Runnable(Step(s, es[0]), es[1..])
  {
    hide Step, Shape, Enabled;
  }

  /** A task that goes to sleep comes behind those that expire no later, and before the others. */
  lemma SleeperPlaced(s: State, ms: int, u: nat)
    requires InvBut(s, TASKS) && 0 < ms && u in s.timers && RunsReady(s) && s.current != IDLE && Shape(s)
    ensures Shape(Handle(s, Sleep(ms))) && u < TASKS
    ensures if s.tasks[u].expire <= Expiry(s.clock, ms) then Before(Handle(s, Sleep(ms)).timers, u, s.current)
            else Before(Handle(s, Sleep(ms)).timers, s.current, u)
  {
    hide *;
    ShapeCurrent(s);
    NotSleeping(s);
    TimersOnce(s);
    SortedIn(s.timers, s.tasks);
    SleepList(s, ms);
    PlaceOrder(s.timers, s.tasks, s.current, Expiry(s.clock, ms), u);
  }

  lemma SortedIn(xs: seq<nat>, tasks: seq<Task>)
    requires Sorted(xs, tasks)
    ensures forall i :: 0 <= i < |xs| ==> xs[i] < |tasks|
    ensures forall i, j :: 0 <= i <= j < |xs| ==> tasks[xs[i]].expire <= tasks[xs[j]].expire
  {
  }

  lemma InsertedAt(xs: seq<nat>, k: nat, x: nat)
    requires k <= |xs|
    ensures var ys := xs[..k] + [x] + xs[k..];
            && |ys| == |xs| + 1 && ys[k] == x
            && (forall i :: 0 <= i < k ==> ys[i] == xs[i]) && (forall i :: k <= i < |xs| ==> ys[i + 1] == xs[i])
  {
  }

  lemma OtherExpiries(timers: seq<nat>, tasks: seq<Task>, c: nat, expire: nat)
    requires c < |tasks| && c !in timers && forall i :: 0 <= i < |timers| ==> timers[i] < |tasks|
    ensures var tasks' := tasks[c := tasks[c].(expire := expire)];
            |tasks'| == |tasks| && forall i :: 0 <= i < |timers| ==> tasks'[timers[i]] == tasks[timers[i]]
  {
  }

  lemma PlaceOrder(timers: seq<nat>, tasks: seq<Task>, c: nat, expire: nat, u: nat)
    requires Sorted(timers, tasks) && c < |tasks| && c !in timers && u in timers
    ensures u < |tasks| && forall i :: 0 <= i < |timers| ==> timers[i] < |tasks|
    ensures var k := TimerPlace(timers, tasks[c := tasks[c].(expire := expire)], expire);
            var ys := timers[..k] + [c] + timers[k..];
            if tasks[u].expire <= expire then Before(ys, u, c) else Before(ys, c, u)
  {
    hide *;
    SortedIn(timers, tasks);
    OtherExpiries(timers, tasks, c, expire);
    var tasks' := tasks[c := tasks[c].(expire := expire)];
    var k := TimerPlace(timers, tasks', expire);
    var ys := timers[..k] + [c] + timers[k..];
    InsertedAt(timers, k, c);
    InsertedOrder(timers, tasks, ys, k, c, expire, u);
  }

  lemma InsertedOrder(timers: seq<nat>, tasks: seq<Task>, ys: seq<nat>, k: nat, c: nat, expire: nat, u: nat)
    requires u in timers && k <= |timers| && |ys| == |timers| + 1 && ys[k] == c
    requires (forall i :: 0 <= i < k ==> ys[i] == timers[i]) && forall i :: k <= i < |timers| ==> ys[i + 1] == timers[i]
    requires forall i :: 0 <= i < |timers| ==> timers[i] < |tasks|
    requires forall i, j :: 0 <= i <= j < |timers| ==> tasks[timers[i]].expire <= tasks[timers[j]].expire
    requires forall i :: 0 <= i < k ==> tasks[timers[i]].expire <= expire
    requires k < |timers| ==> tasks[timers[k]].expire > expire
    ensures u < |tasks| && if tasks[u].expire <= expire then Before(ys, u, c) else Before(ys, c, u)
  {
    var i :| 0 <= i < |timers| && timers[i] == u;
    if i < k {
      BeforeAt(ys, i, k);
    } else {
      BeforeAt(ys, k, i + 1);
    }
    hide Before;
  }

  lemma NotSleeping(s: State)
    requires InvBut(s, TASKS) && RunsReady(s) && s.current != IDLE
    ensures Shape(s) && s.current !in s.timers
  {
    assert Placed(s, s.current);
  }

  // ----- waiting senders

  /** When a's last message to b was accepted: its place in the log, from 1; 0 if there is none. */
  function AcceptedAt(log: seq<Letter>, a: nat, b: nat): nat {
    if log == [] then 0
    else if log[|log| - 1].from == a && log[|log| - 1].to == b then |log|
    else AcceptedAt(log[..|log| - 1], a, b)
  }

  lemma AcceptedNext(log: seq<Letter>, l: Letter, a: nat, b: nat)
    ensures AcceptedAt(log + [l], a, b) == if l.from == a && l.to == b then |log| + 1 else AcceptedAt(log, a, b)
  {
    assert (log + [l])[..|log|] == log;
  }

  lemma {:induction false} AcceptedBound(log: seq<Letter>, a: nat, b: nat)
    ensures AcceptedAt(log, a, b) <= |log|
  {
    if log != [] {
      AcceptedBound(log[..|log| - 1], a, b);
    }
  }

  /** The senders waiting for b are in the order in which their messages were accepted. */
  ghost predicate Lined(log: seq<Letter>, queue: seq<nat>, b: nat) {
    forall i, j :: 0 <= i < j < |queue| ==> AcceptedAt(log, queue[i], b) < AcceptedAt(log, queue[j], b)
  }

  ghost predicate InLine(s: State)
    requires Shape(s)
  {
    forall b: nat {:trigger Lined(s.sent, s.senders[b], b)} :: b < TASKS ==> Lined(s.sent, s.senders[b], b)
  }

  predicate Wants(ask: int, pid: int) {
    ask == ALL_TASKS || ask == pid
  }

  /** The task waits for a message, and wants this sender's. */
  predicate Awaits(t: Task, pid: int) {
    t.receiving && Wants(t.recPid, pid)
  }

  /** At no time does a task wait while a sender whose message it wants waits for it. */
  lemma NobodyMissed(s: State, d: nat, i: nat)
    requires Settled(s) && d < TASKS && Shape(s) && i < |s.senders[d]|
    ensures !Awaits(s.tasks[d], s.tasks[s.senders[d][i]].pid)
  {
    assert !Accepts(s.tasks[d], s.tasks[s.senders[d][i]].pid);
  }

  /** A message goes to a task that waits for it at once, and the sender goes on; otherwise the sender waits, last in the queue. */
  lemma SendExact(s: State, dest: int, contents: Message)
    requires Settled(s) && Shape(s) && s.current != IDLE && FindTask(s.tasks, dest) < TASKS
    ensures var d, c, s' := FindTask(s.tasks, dest), s.current, SendMessage(s, dest, contents);
            && Shape(s')
            && if Awaits(s.tasks[d], s.tasks[c].pid) then
                 && s'.senders == s.senders && Ready(s', d) && !s'.tasks[d].receiving && s'.tasks[d].delivering
                 && s'.tasks[d].buffer == contents && Ready(s', c) && !s'.tasks[c].sending
               else
                 && s'.senders == s.senders[d := s.senders[d] + [c]] && !Ready(s', c) && s'.tasks[c].sending
                 && s'.tasks[c].buffer == contents && s'.tasks[d].receiving == s.tasks[d].receiving
  {
    hide *;
    var d := FindTask(s.tasks, dest);
    SettledMeans(s);
    RunningReady(s);
    SendIs(s, dest, contents);
    AwaitsIs(s.tasks[d], s.tasks[s.current].pid);
    if s.tasks[d].receiving {
      ReceiverWaits(s, d);
    }
    if Accepts(s.tasks[d], s.tasks[s.current].pid) {
      HandedOver(s, d, contents);
    } else {
      QueuedUp(s, d, contents);
    }
  }

  /** x is the first sender in the queue whose message the receiver wants. */
  ghost predicate FirstWanted(queue: seq<nat>, tasks: seq<Task>, from: int, k: nat) {
    && k < |queue| && (forall i :: 0 <= i < |queue| ==> queue[i] < |tasks|)
    && Wants(from, tasks[queue[k]].pid) && forall j :: 0 <= j < k ==> !Wants(from, tasks[queue[j]].pid)
  }

  /** A receive is refused, or it takes the message of the first sender that is wanted, which gets ready, and the receiver goes on;
      if there is none the receiver waits. */
  lemma ReceiveExact(s: State, from: int, pointer: nat)
    requires Settled(s) && Shape(s) && s.current != IDLE
    ensures var c, s' := s.current, ReceiveMessage(s, from, pointer);
            && Shape(s')
            && if from == NO_TASK then
                 s'.tasks[c].result == -1 && Ready(s', c) && s'.senders == s.senders && s'.handed == s.handed
               else if exists k: nat :: FirstWanted(s.senders[c], s.tasks, from, k) then
                 forall k: nat :: FirstWanted(s.senders[c], s.tasks, from, k) ==> Received(s, s', c, k)
               else
                 && s'.senders == s.senders && s'.handed == s.handed
                 && s'.tasks[c].receiving && s'.tasks[c].recPid == from && s'.tasks[c].pointer == pointer && !Ready(s', c)
  {
    hide *;
    SettledMeans(s);
    RunningReady(s);
    SendersIn(s, s.current);
    var queue := s.senders[s.current];
    var k := FirstMatch(queue, s.tasks, from);
    ShapeReceive(s, from, pointer);
    MatchIs(queue, s.tasks, from);
    if from == NO_TASK {
      RefusedIs(s, from, pointer);
    } else if k < |queue| {
      assert FirstWanted(queue, s.tasks, from, k);
      SenderWaits(s, s.current, k);
      TakenFrom(s, from, pointer);
    } else {
      Waiting(s, from, pointer);
    }
  }

  /** The k-th sender's message is handed to task c. */
  ghost predicate Received(s: State, s': State, c: nat, k: nat)
    requires Shape(s) && Shape(s') && c < TASKS
  {
    && k < |s.senders[c]|
    && var x := s.senders[c][k];
    && s'.senders == s.senders[c := s.senders[c][..k] + s.senders[c][k + 1..]]
    && s'.handed == s.handed + [Letter(x, c, s.tasks[x].buffer)]
    && Ready(s', x) && !s'.tasks[x].sending && Ready(s', c) && s'.tasks[c].result == 0
  }

  lemma SendersIn(s: State, c: nat)
    requires Shape(s) && c < TASKS
    ensures forall i :: 0 <= i < |s.senders[c]| ==> s.senders[c][i] < |s.tasks|
  {
  }

  lemma MatchIs(queue: seq<nat>, tasks: seq<Task>, from: int)
    requires forall i :: 0 <= i < |queue| ==> queue[i] < |tasks|
    ensures forall k: nat :: FirstWanted(queue, tasks, from, k) <==> k < |queue| && k == FirstMatch(queue, tasks, from)
  {
    hide FirstMatch;
    var m := FirstMatch(queue, tasks, from);
    assert forall j :: 0 <= j < m ==> !Wants(from, tasks[queue[j]].pid);
    assert m < |queue| ==> Wants(from, tasks[queue[m]].pid);
  }

  lemma RefusedIs(s: State, from: int, pointer: nat)
    requires Shape(s) && from == NO_TASK && Ready(s, s.current)
    ensures var s' := ReceiveMessage(s, from, pointer);
            && Shape(s') && s'.tasks[s.current].result == -1 && Ready(s', s.current) && s'.senders == s.senders
            && s'.handed == s.handed
  {
  }

  lemma SenderWaits(s: State, c: nat, k: nat)
    requires InvBut(s, TASKS) && Shape(s) && c < TASKS && k < |s.senders[c]|
    ensures s.senders[c][k] < TASKS && s.tasks[s.senders[c][k]].sending && !Ready(s, s.senders[c][k])
  {
    assert Placed(s, s.senders[c][k]);
    assert SendersOK(s);
  }

  lemma TakenFrom(s: State, from: int, pointer: nat)
    requires Shape(s) && QueuesOK(s) && from != NO_TASK && Ready(s, s.current)
    requires var k := FirstMatch(s.senders[s.current], s.tasks, from);
             k < |s.senders[s.current]| && !Ready(s, s.senders[s.current][k])
    ensures Shape(ReceiveMessage(s, from, pointer))
    ensures Received(s, ReceiveMessage(s, from, pointer), s.current, FirstMatch(s.senders[s.current], s.tasks, from))
  {
    var k := FirstMatch(s.senders[s.current], s.tasks, from);
    ShapeReceive(s, from, pointer);
    ShapeAnswers(s, k, from, pointer);
    hide Enqueue, QueuesOK, FirstMatch, Take, Received;
    SenderFreed(s, k);
  }

  lemma SenderFreed(s: State, k: nat)
    requires Shape(s) && QueuesOK(s) && k < |s.senders[s.current]| && !Ready(s, s.senders[s.current][k]) && Ready(s, s.current)
    ensures Shape(Take(s, k)) && s.senders[s.current][k] < TASKS && Shape(Enqueue(Take(s, k), s.senders[s.current][k]))
    ensures var s' := SetResult(Enqueue(Take(s, k), s.senders[s.current][k]), 0); Shape(s') && Received(s, s', s.current, k)
  {
    var x := s.senders[s.current][k];
    ShapeAnswers(s, k, 0, 0);
    QueuesEnqueue(Take(s, k), x);
    hide Enqueue, QueuesOK;
    EnqueueSame(Take(s, k), x);
    ShapeResult(Enqueue(Take(s, k), x), 0);
  }

  lemma Waiting(s: State, from: int, pointer: nat)
    requires Shape(s) && QueuesOK(s) && from != NO_TASK
    requires FirstMatch(s.senders[s.current], s.tasks, from) >= |s.senders[s.current]|
    ensures var c, s' := s.current, ReceiveMessage(s, from, pointer);
            && Shape(s') && s'.senders == s.senders && s'.handed == s.handed
            && s'.tasks[c].receiving && s'.tasks[c].recPid == from && s'.tasks[c].pointer == pointer && !Ready(s', c)
  {
    ShapeReceive(s, from, pointer);
    ShapeAnswers(s, 0, from, pointer);
    QueuesDequeue(Await(s, from, pointer), s.current);
    hide Dequeue, QueuesOK, FirstMatch;
    DequeueSame(Await(s, from, pointer), s.current);
    assert !Ready(Dequeue(Await(s, from, pointer), s.current), s.current);
  }

  lemma AwaitsIs(t: Task, pid: int)
    ensures Awaits(t, pid) <==> Accepts(t, pid)
    ensures Awaits(t, pid) ==> t.receiving
  {
  }

  lemma RunningReady(s: State)
    requires InvBut(s, TASKS) && RunsReady(s) && s.current != IDLE
    ensures Shape(s) && s.current < |s.tasks| == |s.senders| == TASKS && QueuesOK(s) && Ready(s, s.current)
    ensures !s.tasks[s.current].sending && !s.tasks[s.current].receiving
  {
    assert Placed(s, s.current);
  }

  lemma ReceiverWaits(s: State, d: nat)
    requires InvBut(s, TASKS) && d < TASKS && s.tasks[d].receiving && Shape(s)
    ensures !Ready(s, d)
  {
    assert Placed(s, d);
  }

  lemma HandedOver(s: State, d: nat, contents: Message)
    requires Shape(s) && QueuesOK(s) && d < TASKS && Ready(s, s.current) && !Ready(s, d) && !s.tasks[s.current].sending
    ensures Shape(HandOver(s, d, contents)) && Shape(Enqueue(HandOver(s, d, contents), d))
    ensures var c, s' := s.current, SetResult(Enqueue(HandOver(s, d, contents), d), 0);
            && Shape(s') && s'.senders == s.senders && Ready(s', d) && !s'.tasks[d].receiving && s'.tasks[d].delivering
            && s'.tasks[d].buffer == contents && Ready(s', c) && !s'.tasks[c].sending
  {
    ShapeTransfers(s, d, contents);
    QueuesEnqueue(HandOver(s, d, contents), d);
    hide Enqueue, QueuesOK;
    EnqueueSame(HandOver(s, d, contents), d);
  }

  lemma EnqueueSame(s: State, d: nat)
    requires Shape(s) && d < TASKS
    ensures Enqueue(s, d) == s.(ready := Enqueue(s, d).ready, reschedule := true)
  {
  }

  lemma QueuedUp(s: State, d: nat, contents: Message)
    requires Shape(s) && QueuesOK(s) && d < TASKS && d < |s.senders|
    ensures Shape(QueueUp(s, d, contents)) && Shape(Dequeue(QueueUp(s, d, contents), s.current))
    ensures var c, s' := s.current, SetResult(Dequeue(QueueUp(s, d, contents), s.current), 0);
            && Shape(s') && s'.senders == s.senders[d := s.senders[d] + [c]] && !Ready(s', c) && s'.tasks[c].sending
            && s'.tasks[c].buffer == contents && s'.tasks[d].receiving == s.tasks[d].receiving
  {
    ShapeTransfers(s, d, contents);
    QueuesDequeue(QueueUp(s, d, contents), s.current);
    hide Dequeue, QueuesOK;
    DequeueSame(QueueUp(s, d, contents), s.current);
    assert !Ready(Dequeue(QueueUp(s, d, contents), s.current), s.current);
  }

  lemma DequeueSame(s: State, d: nat)
    requires Shape(s) && d < TASKS
    ensures Dequeue(s, d) == s.(ready := Dequeue(s, d).ready, reschedule := Dequeue(s, d).reschedule)
  {
  }

  /** A message that is handed over, or put aside for a waiting receiver, is the one accepted first of those that the receiver
      wants and has not got. */
  ghost predicate FirstCome(s: State, e: Event)
    requires Shape(s)
  {
    match e
    case Receive(from, _) =>
      var queue := s.senders[s.current];
      var k := FirstMatch(queue, s.tasks, from);
      k < |queue| && from != NO_TASK ==>
        && Wants(from, s.tasks[queue[k]].pid)
        && forall j :: 0 <= j < |queue| && j != k && Wants(from, s.tasks[queue[j]].pid) ==>
             AcceptedAt(s.sent, queue[k], s.current) < AcceptedAt(s.sent, queue[j], s.current)
    case Send(dest, _) =>
      var d := FindTask(s.tasks, dest);
      d < TASKS && Awaits(s.tasks[d], s.tasks[s.current].pid) ==>
        forall j :: 0 <= j < |s.senders[d]| ==> !Wants(s.tasks[d].recPid, s.tasks[s.senders[d][j]].pid)
    case _ => true
  }

  lemma LinedIs(s: State, b: nat)
    requires Shape(s) && InLine(s) && b < TASKS
    ensures Lined(s.sent, s.senders[b], b)
  {
  }

  lemma StepFirstCome(s: State, e: Event)
    requires Shape(s) && InvBut(s, TASKS) && InLine(s)
    ensures FirstCome(s, e)
  {
    match e
    case Receive(from, _) => LinedIs(s, s.current);
    case Send(dest, _) =>
      var d := FindTask(s.tasks, dest);
      if d < TASKS && Awaits(s.tasks[d], s.tasks[s.current].pid) {
        forall j | 0 <= j < |s.senders[d]|
          ensures !Wants(s.tasks[d].recPid, s.tasks[s.senders[d][j]].pid)
        {
          assert !Accepts(s.tasks[d], s.tasks[s.senders[d][j]].pid);
        }
      }
    case _ =>
    hide InvBut, InLine;
  }

  ghost predicate SameLines(s: State, s': State) {
    s'.senders == s.senders && s'.sent == s.sent
  }

  lemma SameInLine(s: State, s': State)
    requires Shape(s) && Shape(s') && InLine(s) && SameLines(s, s')
    ensures InLine(s')
  {
    hide Lined;
    forall b: nat | b < TASKS
      ensures Lined(s'.sent, s'.senders[b], b)
    {
      LinedIs(s, b);
    }
  }

  lemma {:induction false} WakeLines(s: State)
    requires Shape(s)
    ensures SameLines(s, Wake(s))
    decreases |s.timers|
  {
    if s.timers != [] && s.tasks[s.timers[0]].expire <= s.clock {
      var s1 := s.(timers := s.timers[1..]);
      ShapeEnqueue(s1, s.timers[0]);
      WakeLines(Enqueue(s1, s.timers[0]));
    }
  }

  lemma TickLines(s: State)
    requires Shape(s)
    ensures Shape(TickTask(s)) && SameLines(s, TickTask(s))
  {
    ShapeTick(s);
    var t := s.tasks[s.current];
    if t.preemptible && OneLess(t.ticksLeft) == 0 {
      ShapeDequeue(SetTicks(s, t.quantum), s.current);
    }
  }

  /** Only messages concern the waiting senders. */
  lemma OtherLines(s: State, e: Event)
    requires Shape(s) && !e.Send? && !e.Receive?
    ensures Shape(Handle(s, e)) && SameLines(s, Handle(s, e))
  {
    ShapeHandle(s, e);
    match e
    case Tick =>
      TickIs(s);
      var s1 := s.(clock := (s.clock + 1) % WORD);
      TickLines(s1);
      WakeLines(TickTask(s1));
      hide TimerTick, TickTask, Wake;
    case Sleep(ms) =>
      if ms > 0 {
        ShapeTimer(s, Expiry(s.clock, ms));
        ShapeDequeue(SetTimer(s, Expiry(s.clock, ms)), s.current);
      }
    case Preempt => ShapeDequeue(s, s.current);
    case _ =>
  }

  /** A sender that has to wait comes last. */
  lemma LinedNext(log: seq<Letter>, queue: seq<nat>, b: nat, l: Letter)
    requires Lined(log, queue, b) && l.from !in queue
    ensures Lined(log + [l], queue, b) && (l.to == b ==> Lined(log + [l], queue + [l.from], b))
  {
    var all := queue + [l.from];
    forall i, j | 0 <= i < j < |all| && (j < |queue| || l.to == b)
      ensures AcceptedAt(log + [l], all[i], b) < AcceptedAt(log + [l], all[j], b)
    {
      AcceptedNext(log, l, all[i], b);
      AcceptedNext(log, l, all[j], b);
      AcceptedBound(log, all[i], b);
    }
    forall i, j | 0 <= i < j < |queue|
      ensures AcceptedAt(log + [l], queue[i], b) < AcceptedAt(log + [l], queue[j], b)
    {
      assert all[i] == queue[i] && all[j] == queue[j];
    }
  }

  lemma SendLines(s: State, dest: int, contents: Message)
    requires Shape(s) && InvBut(s, TASKS) && RunsReady(s) && s.current != IDLE && InLine(s)
    ensures Shape(SendMessage(s, dest, contents)) && InLine(SendMessage(s, dest, contents))
  {
    ShapeSend(s, dest, contents);
    NotQueued(s);
    hide InvBut, InLine, Lined, Placed, Inv;
    var d := FindTask(s.tasks, dest);
    if d == TASKS {
      SameInLine(s, SendMessage(s, dest, contents));
    } else {
      var s', l := SendMessage(s, dest, contents), Letter(s.current, d, contents);
      ShapeTransfers(s, d, contents);
      ShapeDequeue(QueueUp(s, d, contents), s.current);
      assert s'.sent == s.sent + [l];
      assert s'.senders == s.senders || s'.senders == s.senders[d := s.senders[d] + [s.current]];
      forall b: nat | b < TASKS
        ensures Lined(s'.sent, s'.senders[b], b)
      {
        LinedIs(s, b);
        LinedNext(s.sent, s.senders[b], b, l);
      }
      AllLined(s');
    }
  }

  lemma AllLined(s: State)
    requires Shape(s) && forall b: nat :: b < TASKS ==> Lined(s.sent, s.senders[b], b)
    ensures InLine(s)
  {
    hide Lined;
  }

  /** The running task does not wait to send. */
  lemma NotQueued(s: State)
    requires InvBut(s, TASKS) && RunsReady(s) && s.current != IDLE
    ensures Shape(s) && s.current < TASKS && forall d: nat :: d < TASKS ==> s.current !in s.senders[d]
  {
    assert Placed(s, s.current);
    assert !s.tasks[s.current].sending;
    assert SendersOK(s);
    hide InvBut, Placed, Lists;
  }

  lemma LinedWithout(log: seq<Letter>, queue: seq<nat>, b: nat, k: nat)
    requires Lined(log, queue, b) && k < |queue|
    ensures Lined(log, queue[..k] + queue[k + 1..], b)
  {
    var rest := queue[..k] + queue[k + 1..];
    forall i, j | 0 <= i < j < |rest|
      ensures AcceptedAt(log, rest[i], b) < AcceptedAt(log, rest[j], b)
    {
      assert rest[i] == queue[if i < k then i else i + 1] && rest[j] == queue[if j < k then j else j + 1];
    }
  }

  lemma ReceiveLines(s: State, from: int, pointer: nat)
    requires Shape(s) && InLine(s)
    ensures Shape(ReceiveMessage(s, from, pointer)) && InLine(ReceiveMessage(s, from, pointer))
  {
    ShapeReceive(s, from, pointer);
    var k := FirstMatch(s.senders[s.current], s.tasks, from);
    var s' := ReceiveMessage(s, from, pointer);
    ShapeAnswers(s, k, from, pointer);
    ShapeDequeue(Await(s, from, pointer), s.current);
    hide InLine, Lined;
    forall b: nat | b < TASKS
      ensures Lined(s'.sent, s'.senders[b], b)
    {
      LinedIs(s, b);
      if b == s.current && k < |s.senders[b]| {
        LinedWithout(s.sent, s.senders[b], b, k);
      }
    }
    AllLined(s');
  }

  lemma HandleLines(s: State, e: Event)
    requires Shape(s) && InvBut(s, TASKS) && RunsReady(s) && Enabled(s, e) && InLine(s)
    ensures Shape(Handle(s, e)) && InLine(Handle(s, e))
  {
    hide InvBut, InLine, Handle, RunsReady, Shape;
    match e
    case Send(dest, contents) =>
      SendLines(s, dest, contents);
      HandleIs(s, e);
    case Receive(from, pointer) =>
      ReceiveLines(s, from, pointer);
      HandleIs(s, e);
    case _ =>
      OtherLines(s, e);
      SameInLine(s, Handle(s, e));
  }

  lemma HandleIs(s: State, e: Event)
    requires Shape(s)
    ensures e.Send? ==> Handle(s, e) == SendMessage(s, e.dest, e.contents)
    ensures e.Receive? ==> Handle(s, e) == ReceiveMessage(s, e.from, e.pointer)
  {
    hide SendMessage, ReceiveMessage;
  }

  lemma ResumeLines(s: State)
    requires Shape(s)
    ensures Shape(Resume(s)) && SameLines(s, Resume(s))
  {
    ShapeSwitch(s);
  }

  /** At every step of the run messages are handed over first come, first served. */
  ghost predicate Served(s: State, es: seq<Event>)
    requires Shape(s) && Runnable(s, es)
    decreases |es|
  {
    es == [] || (FirstCome(s, es[0]) && Served(Step(s, es[0]), es[1..]))
  }

  /** Over every run the message a task gets is, of all accepted ones it wants and has not got, the one accepted first. */
  lemma {:induction false} RunServed(s: State, es: seq<Event>)
    requires Settled(s) && Shape(s) && Runnable(s, es) && InLine(s)
    ensures Served(s, es) && Shape(Run(s, es)) && InLine(Run(s, es))
    decreases |es|
  {
    hide Settled, InLine, FirstCome, Step, Shape, InvBut, RunsReady;
    if es != [] {
      SettledMeans(s);
      StepFirstCome(s, es[0]);
      HandleLines(s, es[0]);
      ResumeLines(Handle(s, es[0]));
      StepIs(s, es[0]);
      SameInLine(Handle(s, es[0]), Step(s, es[0]));
      StepKeeps(s, es[0]);
      RunServed(Step(s, es[0]), es[1..]);
    }
  }

  /** With no sender waiting, as after boot, they are in line. */
  lemma NoneWaiting(s: State)
    requires Shape(s) && forall b: nat :: b < TASKS ==> s.senders[b] == []
    ensures InLine(s)
  {
  }
}
