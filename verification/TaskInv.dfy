/** What every step of the task machine keeps. */
module TaskInv {
  import opened TaskModel
  import opened Sequences

  /** t is a task other than the idle task. */
  predicate IsUser(s: State, t: nat)
    requires t < |s.tasks|
  {
    t != IDLE && s.tasks[t].pid != NO_TASK
  }

  ghost predicate Ready(s: State, t: nat)
    requires Shape(s) && t < TASKS
  {
    t in s.ready[s.tasks[t].priority]
  }

  /** A task that can run is in exactly one place: its ready queue, the timer list, waiting to receive, or the
      queue of the task it sends to.  The idle task and unused slots are in none. */
  ghost predicate Placed(s: State, t: nat)
    requires Shape(s) && t < TASKS
  {
    var k := s.tasks[t];
    && (Ready(s, t) ==> t !in s.timers && !k.sending && !k.receiving)
    && (t in s.timers ==> !k.sending && !k.receiving)
    && !(k.sending && k.receiving)
    && (IsUser(s, t) <==> Ready(s, t) || t in s.timers || k.sending || k.receiving)
    && (k.sending ==> 0 <= k.sendTo < TASKS && t in s.senders[k.sendTo])
    && (k.delivering ==> Ready(s, t))
    && k.afterSwitch == k.delivering
  }

  /** A task that is just between two places. */
  ghost predicate Unplaced(s: State, t: nat)
    requires Shape(s) && t < TASKS
  {
    var k := s.tasks[t];
    && IsUser(s, t) && !Ready(s, t) && t !in s.timers && !k.sending && !k.receiving
    && k.afterSwitch == k.delivering
  }

  ghost predicate QueuesOK(s: State)
    requires Shape(s)
  {
    && (forall p :: 0 <= p < PRIORITIES ==> NoDup(s.ready[p]))
    && (forall p, i :: 0 <= p < PRIORITIES && 0 <= i < |s.ready[p]| ==> s.tasks[s.ready[p][i]].priority == p)
  }

  ghost predicate SendersOK(s: State)
    requires Shape(s)
  {
    && (forall d :: 0 <= d < TASKS ==> NoDup(s.senders[d]))
    && (forall d, i :: 0 <= d < TASKS && 0 <= i < |s.senders[d]| ==>
          s.tasks[s.senders[d][i]].sending && s.tasks[s.senders[d][i]].sendTo == d)
  }

  /** Timers in the order of their expiry. */
  ghost predicate Sorted(xs: seq<nat>, tasks: seq<Task>) {
    && (forall i :: 0 <= i < |xs| ==> xs[i] < |tasks|)
    && (forall i, j :: 0 <= i < j < |xs| ==> tasks[xs[i]].expire <= tasks[xs[j]].expire)
  }

  ghost predicate TimersOK(s: State)
    requires Shape(s)
  {
    NoDup(s.timers) && Sorted(s.timers, s.tasks)
  }

  ghost predicate NothingDue(s: State)
    requires Shape(s)
  {
    forall i :: 0 <= i < |s.timers| ==> s.tasks[s.timers[i]].expire > s.clock
  }

  /** No task waits to receive while a sender it would accept is in its queue. */
  ghost predicate NoMissed(s: State)
    requires Shape(s)
  {
    forall d, i :: 0 <= d < TASKS && 0 <= i < |s.senders[d]| ==> !Accepts(s.tasks[d], s.tasks[s.senders[d][i]].pid)
  }

  ghost predicate RecordsOK(s: State)
    requires Shape(s)
  {
    && (forall t :: 0 <= t < TASKS ==> s.tasks[t].pid == t || s.tasks[t].pid == NO_TASK)
    && s.tasks[IDLE].pid == IDLE && !s.tasks[IDLE].preemptible
    && (forall t :: 0 <= t < TASKS && s.tasks[t].pid != NO_TASK ==> 1 <= s.tasks[t].ticksLeft <= s.tasks[t].quantum < 0x1_0000)
    && (forall t :: 0 <= t < TASKS && s.tasks[t].delivering ==> 0 <= s.tasks[t].origin < TASKS)
    && s.clock < WORD
  }

  ghost predicate Lists(s: State)
    requires Shape(s)
  {
    QueuesOK(s) && SendersOK(s) && TimersOK(s) && NoMissed(s) && RecordsOK(s)
  }

  /** Everything is in order, except that task x is between two places (TASKS: no task is). */
  ghost predicate InvBut(s: State, x: nat) {
    && Shape(s) && Lists(s)
    && (forall t {:trigger Placed(s, t)} :: 0 <= t < TASKS && t != x ==> Placed(s, t))
    && (x < TASKS ==> Unplaced(s, x))
  }

  /** The cached choice is what a full scan of the queues would give. */
  ghost predicate Cached(s: State) {
    !s.reschedule ==> s.next == Choose(s.ready)
  }

  ghost predicate Inv(s: State) {
    InvBut(s, TASKS) && Cached(s)
  }

  /** Between two steps the chosen task runs, with no message left to deliver to it. */
  ghost predicate Settled(s: State) {
    && Inv(s) && !s.reschedule && s.current == s.next == Choose(s.ready) && !s.tasks[s.current].delivering
  }

  // ----- sequences

  lemma {:induction false} WithoutNoDup(xs: seq<nat>, t: nat)
    requires NoDup(xs)
    ensures NoDup(Without(xs, t)) && t !in Without(xs, t)
    ensures forall y :: y != t ==> (y in Without(xs, t) <==> y in xs)
  {
    if xs != [] {
      if xs[0] != t {
        WithoutNoDup(xs[1..], t);
        forall j | 0 < j < |Without(xs, t)|
          ensures Without(xs, t)[j] != xs[0]
        {
          assert Without(xs, t)[j] in Without(xs[1..], t);
          WithoutIn(xs[1..], t, Without(xs, t)[j]);
        }
      }
      assert xs == [xs[0]] + xs[1..];
    }
  }

  /** The top queue is the only one with its properties. */
  lemma TopQueueIs(ready: seq<seq<nat>>, p: nat)
    requires p < |ready| && ready[p] != [] && forall q :: 0 <= q < p ==> ready[q] == []
    ensures TopQueue(ready) == p && Choose(ready) == ready[p][0]
  {
  }

  // ----- moving a task out of its ready queue and back

  /** Taking out a task that is not the choice leaves the choice. */
  lemma ChoiceKept(ready: seq<seq<nat>>, p: nat, t: nat)
    requires p < |ready| && t in ready[p] && t != Choose(ready)
    ensures Choose(ready[p := Without(ready[p], t)]) == Choose(ready)
  {
    var top := TopQueue(ready);
    var ready' := ready[p := Without(ready[p], t)];
    if p == top {
      WithoutHead(ready[p], t);
      TopQueueIs(ready', top);
    } else {
      TopQueueIs(ready', top);
    }
  }

  lemma WithoutHead(xs: seq<nat>, t: nat)
    requires xs != [] && xs[0] != t
    ensures Without(xs, t) != [] && Without(xs, t)[0] == xs[0]
  {
  }

  lemma CachedDequeue(s: State, t: nat)
    requires Shape(s) && t < TASKS && Cached(s)
    ensures Cached(Dequeue(s, t))
  {
    var p := s.tasks[t].priority;
    if t in s.ready[p] && !Dequeue(s, t).reschedule {
      ChoiceKept(s.ready, p, t);
    }
  }

  lemma QueuesEnqueue(s: State, t: nat)
    requires Shape(s) && QueuesOK(s) && t < TASKS && !Ready(s, t)
    ensures Shape(Enqueue(s, t)) && QueuesOK(Enqueue(s, t))
    ensures forall x: nat :: x < TASKS ==> (Ready(Enqueue(s, t), x) <==> x == t || Ready(s, x))
  {
    ShapeEnqueue(s, t);
    var p := s.tasks[t].priority;
    var s' := Enqueue(s, t);
    forall x: nat | x < TASKS
      ensures Ready(s', x) <==> x == t || Ready(s, x)
    {
      if Ready(s', x) && x != t && s.tasks[x].priority == p {
        var i :| 0 <= i < |s'.ready[p]| && s'.ready[p][i] == x;
        assert i < |s.ready[p]|;
      }
      if x == t {
        assert s'.ready[p][|s.ready[p]|] == t;
      }
    }
  }

  lemma QueuesDequeue(s: State, t: nat)
    requires Shape(s) && QueuesOK(s) && t < TASKS
    ensures Shape(Dequeue(s, t)) && QueuesOK(Dequeue(s, t))
    ensures forall x: nat :: x < TASKS ==> (Ready(Dequeue(s, t), x) <==> x != t && Ready(s, x))
  {
    ShapeDequeue(s, t);
    var p := s.tasks[t].priority;
    var s' := Dequeue(s, t);
    WithoutNoDup(s.ready[p], t);
    if t in s.ready[p] {
      forall i | 0 <= i < |s'.ready[p]|
        ensures s'.tasks[s'.ready[p][i]].priority == p
      {
        WithoutIn(s.ready[p], t, s'.ready[p][i]);
      }
    }
    forall x: nat | x < TASKS
      ensures Ready(s', x) <==> x != t && Ready(s, x)
    {
      WithoutIn(s.ready[p], t, x);
    }
  }

  /** What of Lists does not concern the ready queues is unchanged. */
  lemma ListsEnqueue(s: State, t: nat)
    requires Shape(s) && Lists(s) && t < TASKS && !Ready(s, t)
    ensures Shape(Enqueue(s, t)) && Lists(Enqueue(s, t))
  {
    QueuesEnqueue(s, t);
  }

  lemma ListsDequeue(s: State, t: nat)
    requires Shape(s) && Lists(s) && t < TASKS
    ensures Shape(Dequeue(s, t)) && Lists(Dequeue(s, t))
  {
    QueuesDequeue(s, t);
  }

  /** A task between two places becomes ready. */
  lemma EnqueueFills(s: State, t: nat)
    requires InvBut(s, t) && t < TASKS
    ensures InvBut(Enqueue(s, t), TASKS) && Cached(Enqueue(s, t)) && Ready(Enqueue(s, t), t)
  {
    hide QueuesOK, SendersOK, TimersOK, NoMissed, RecordsOK;
    QueuesEnqueue(s, t);
    ListsEnqueue(s, t);
    var s' := Enqueue(s, t);
    forall x: nat | x < TASKS
      ensures Placed(s', x)
    {
      assert x != t ==> Placed(s, x);
    }
  }

  /** A ready task leaves its queue. */
  lemma DequeueEmpties(s: State, t: nat)
    requires InvBut(s, TASKS) && t < TASKS && Ready(s, t)
    ensures InvBut(Dequeue(s, t), t)
  {
    hide QueuesOK, SendersOK, TimersOK, NoMissed, RecordsOK;
    QueuesDequeue(s, t);
    ListsDequeue(s, t);
    var s' := Dequeue(s, t);
    assert Placed(s, t);
    forall x: nat | x < TASKS && x != t
      ensures Placed(s', x)
    {
      assert Placed(s, x);
    }
  }

  // ----- leaving and entering the other places

  lemma ResultKeeps(s: State, r: int, x: nat)
    requires InvBut(s, x)
    ensures InvBut(SetResult(s, r), x)
    ensures Cached(s) ==> Cached(SetResult(s, r))
    ensures NothingDue(s) ==> NothingDue(SetResult(s, r))
  {
    var s' := SetResult(s, r);
    forall t: nat | t < TASKS && t != x
      ensures Placed(s', t)
    {
      assert Placed(s, t);
    }
  }

  /** The receiver of a message leaves its wait. */
  lemma ReceiverLeaves(s: State, d: nat, contents: Message)
    requires InvBut(s, TASKS) && d < TASKS && s.tasks[d].receiving
    ensures InvBut(HandOver(s, d, contents), d) && !Ready(s, d)
  {
    assert Placed(s, d);
    var s' := HandOver(s, d, contents);
    assert Shape(s');
    forall t: nat | t < TASKS && t != d
      ensures Placed(s', t)
    {
      assert Placed(s, t);
    }
  }

  /** The sender joins a queue. */
  lemma SenderEnters(s: State, d: nat, contents: Message)
    requires InvBut(s, s.current) && d < TASKS && !s.tasks[s.current].delivering
    requires !Accepts(s.tasks[d], s.tasks[s.current].pid)
    ensures InvBut(QueueUp(s, d, contents), TASKS)
  {
    var c := s.current;
    var s' := QueueUp(s, d, contents);
    assert Shape(s');
    assert NoDup(s'.senders[d]) by {
      assert c !in s.senders[d];
    }
    assert c in s'.senders[d] by {
      assert s'.senders[d][|s.senders[d]|] == c;
    }
    hide Placed;
    forall t: nat | t < TASKS
      ensures Placed(s', t)
    {
      assert t != c ==> Placed(s, t);
      SenderPlaced(s, d, contents, t);
    }
  }

  lemma SenderPlaced(s: State, d: nat, contents: Message, t: nat)
    requires Shape(s) && d < TASKS && t < TASKS && Shape(QueueUp(s, d, contents))
    requires if t == s.current then Unplaced(s, t) && !s.tasks[t].delivering else Placed(s, t)
    ensures Placed(QueueUp(s, d, contents), t)
  {
    if s.tasks[t].sending && s.tasks[t].sendTo == d {
      SubseqIn(s.senders[d], [s.current], t);
    }
    SubseqIn(s.senders[d], [s.current], s.current);
  }

  lemma SubseqIn(xs: seq<nat>, ys: seq<nat>, t: nat)
    ensures t in xs + ys <==> t in xs || t in ys
  {
  }

  /** A queue without its k-th member. */
  lemma TakenOut(xs: seq<nat>, k: nat)
    requires NoDup(xs) && k < |xs|
    ensures NoDup(xs[..k] + xs[k + 1..])
    ensures forall t :: t in xs[..k] + xs[k + 1..] <==> t in xs && t != xs[k]
  {
    var rest := xs[..k] + xs[k + 1..];
    forall t | t in xs && t != xs[k]
      ensures t in rest
    {
      var i :| 0 <= i < |xs| && xs[i] == t;
      assert rest[if i < k then i else i - 1] == t;
    }
  }

  lemma SenderLeavesLists(s: State, k: nat)
    requires Shape(s) && Lists(s) && k < |s.senders[s.current]|
    ensures Shape(Take(s, k)) && Lists(Take(s, k))
  {
    var c := s.current;
    var s' := Take(s, k);
    ShapeAnswers(s, k, 0, 0);
    TakenOut(s.senders[c], k);
    assert s.tasks[s.senders[c][k]].sendTo == c;
    forall d, i | 0 <= d < TASKS && 0 <= i < |s'.senders[d]|
      ensures s'.senders[d][i] in s.senders[d] && s'.senders[d][i] != s.senders[c][k]
    {
      if d != c {
        assert s.tasks[s.senders[d][i]].sendTo == d;
      }
    }
    hide NoDup, TimersOK;
  }

  /** The queued sender whose message is taken leaves the queue. */
  lemma SenderLeaves(s: State, k: nat)
    requires InvBut(s, TASKS) && k < |s.senders[s.current]|
    ensures InvBut(Take(s, k), s.senders[s.current][k])
  {
    var c := s.current;
    var x := s.senders[c][k];
    var s' := Take(s, k);
    SenderLeavesLists(s, k);
    TakenOut(s.senders[c], k);
    assert Placed(s, x) && s.tasks[x].sending;
    hide Lists, Shape;
    forall t: nat | t < TASKS && t != x
      ensures Placed(s', t)
    {
      assert Placed(s, t);
    }
  }

  /** The running task starts to wait, nobody it would accept being in its queue. */
  lemma ReceiverEnters(s: State, from: int, pointer: nat)
    requires InvBut(s, s.current) && !s.tasks[s.current].delivering && from != NO_TASK
    requires FirstMatch(s.senders[s.current], s.tasks, from) == |s.senders[s.current]|
    ensures InvBut(Await(s, from, pointer), TASKS)
  {
    var c := s.current;
    var s' := Await(s, from, pointer);
    assert Shape(s');
    forall t: nat | t < TASKS
      ensures Placed(s', t)
    {
      assert t != c ==> Placed(s, t);
    }
  }

  lemma TimerLeaves(s: State)
    requires InvBut(s, TASKS) && s.timers != []
    ensures InvBut(s.(timers := s.timers[1..]), s.timers[0])
  {
    var x := s.timers[0];
    var s' := s.(timers := s.timers[1..]);
    assert Placed(s, x);
    assert s.timers == [x] + s'.timers;
    assert TimersOK(s') by {
      forall i, j | 0 <= i < j < |s'.timers|
        ensures s'.timers[i] != s'.timers[j]
        ensures s.tasks[s'.timers[i]].expire <= s.tasks[s'.timers[j]].expire
      {
        assert s'.timers[i] == s.timers[i + 1] && s'.timers[j] == s.timers[j + 1];
      }
    }
    forall t: nat | t < TASKS && t != x
      ensures Placed(s', t)
    {
      assert Placed(s, t);
    }
  }

  /** The running task joins the timer list. */
  lemma SleeperEnters(s: State, expire: nat)
    requires InvBut(s, s.current) && !s.tasks[s.current].delivering
    ensures InvBut(SetTimer(s, expire), TASKS)
    ensures NothingDue(s) && expire > s.clock ==> NothingDue(SetTimer(s, expire))
  {
    var c := s.current;
    var s' := SetTimer(s, expire);
    ShapeTimer(s, expire);
    SleeperLists(s, expire);
    hide Lists, Shape;
    forall t: nat | t < TASKS
      ensures Placed(s', t)
    {
      assert t != c ==> Placed(s, t);
    }
  }

  lemma SleeperLists(s: State, expire: nat)
    requires Shape(s) && Lists(s) && s.current !in s.timers && Shape(SetTimer(s, expire))
    ensures Lists(SetTimer(s, expire))
    ensures forall t :: t in SetTimer(s, expire).timers <==> t == s.current || t in s.timers
    ensures NothingDue(s) && expire > s.clock ==> NothingDue(SetTimer(s, expire))
  {
    hide QueuesOK, SendersOK, NoMissed;
    SleeperTimers(s, expire);
    var s' := SetTimer(s, expire);
    assert QueuesOK(s') && SendersOK(s') && NoMissed(s') by { SleeperOthers(s, expire); }
  }

  lemma SleeperOthers(s: State, expire: nat)
    requires Shape(s) && QueuesOK(s) && SendersOK(s) && NoMissed(s) && Shape(SetTimer(s, expire))
    ensures var s' := SetTimer(s, expire); QueuesOK(s') && SendersOK(s') && NoMissed(s')
  {
    hide NoDup;
  }

  lemma InsertedSorted(xs: seq<nat>, k: nat, c: nat, tasks: seq<Task>)
    requires Sorted(xs, tasks) && c < |tasks| && k <= |xs|
    requires forall i :: 0 <= i < k ==> tasks[xs[i]].expire <= tasks[c].expire
    requires k < |xs| ==> tasks[xs[k]].expire > tasks[c].expire
    ensures Sorted(xs[..k] + [c] + xs[k..], tasks)
  {
    var ys := xs[..k] + [c] + xs[k..];
    forall i, j | 0 <= i < j < |ys|
      ensures tasks[ys[i]].expire <= tasks[ys[j]].expire
    {
      if k < j {
        assert ys[j] == xs[j - 1] && tasks[xs[k]].expire <= tasks[xs[j - 1]].expire;
      }
    }
  }

  lemma InsertedNoDup(xs: seq<nat>, k: nat, c: nat)
    requires NoDup(xs) && c !in xs && k <= |xs|
    ensures NoDup(xs[..k] + [c] + xs[k..])
    ensures forall t :: t in xs[..k] + [c] + xs[k..] <==> t == c || t in xs
  {
    var ys := xs[..k] + [c] + xs[k..];
    assert forall i :: 0 <= i < |ys| ==> ys[i] == if i < k then xs[i] else if i == k then c else xs[i - 1];
    assert xs == xs[..k] + xs[k..];
  }

  lemma SleeperTimers(s: State, expire: nat)
    requires Shape(s) && TimersOK(s) && s.current !in s.timers && Shape(SetTimer(s, expire))
    ensures TimersOK(SetTimer(s, expire))
    ensures forall t :: t in SetTimer(s, expire).timers <==> t == s.current || t in s.timers
    ensures NothingDue(s) && expire > s.clock ==> NothingDue(SetTimer(s, expire))
  {
    var s' := SetTimer(s, expire);
    var k := TimerPlace(s.timers, s'.tasks, expire);
    assert forall i :: 0 <= i < |s.timers| ==> s.timers[i] != s.current && s'.tasks[s.timers[i]] == s.tasks[s.timers[i]];
    InsertedSorted(s.timers, k, s.current, s'.tasks);
    InsertedNoDup(s.timers, k, s.current);
    assert s'.timers == s.timers[..k] + [s.current] + s.timers[k..];
    if NothingDue(s) && expire > s.clock {
      forall i | 0 <= i < |s'.timers|
        ensures s'.tasks[s'.timers[i]].expire > s.clock
      {
        assert s'.timers[i] == if i < k then s.timers[i] else if i == k then s.current else s.timers[i - 1];
      }
    }
    hide Shape, NoDup;
  }

  // ----- the clock tick

  lemma TicksKeep(s: State, ticks: nat)
    requires InvBut(s, TASKS) && Cached(s) && 1 <= ticks <= s.tasks[s.current].quantum
    ensures InvBut(SetTicks(s, ticks), TASKS) && Cached(SetTicks(s, ticks))
  {
    var s' := SetTicks(s, ticks);
    assert Shape(s');
    forall t: nat | t < TASKS
      ensures Placed(s', t)
    {
      assert Placed(s, t);
    }
  }

  lemma PreemptKeeps(s: State)
    requires InvBut(s, TASKS) && Ready(s, s.current)
    ensures Shape(Dequeue(s, s.current))
    ensures InvBut(PreemptTask(s, s.current), TASKS) && Cached(PreemptTask(s, s.current))
    ensures Ready(PreemptTask(s, s.current), s.current)
  {
    DequeueEmpties(s, s.current);
    EnqueueFills(Dequeue(s, s.current), s.current);
  }

  /** A running task that can be preempted is not the idle task, so it is ready. */
  ghost predicate RunsReady(s: State)
    requires Shape(s)
  {
    s.current == IDLE || Ready(s, s.current)
  }

  lemma TickKeeps(s: State)
    requires InvBut(s, TASKS) && Cached(s) && RunsReady(s)
    ensures InvBut(TickTask(s), TASKS) && Cached(TickTask(s))
    ensures TickTask(s).timers == s.timers && TickTask(s).clock == s.clock
  {
    var t := s.tasks[s.current];
    if t.preemptible {
      assert Placed(s, s.current) && 1 <= t.ticksLeft <= t.quantum;
      if OneLess(t.ticksLeft) != 0 {
        TicksKeep(s, OneLess(t.ticksLeft));
      } else {
        TicksKeep(s, t.quantum);
        PreemptKeeps(SetTicks(s, t.quantum));
      }
    }
    hide InvBut;
  }

  lemma {:induction false} WakeKeeps(s: State)
    requires InvBut(s, TASKS) && Cached(s)
    ensures InvBut(Wake(s), TASKS) && Cached(Wake(s)) && NothingDue(Wake(s))
    decreases |s.timers|
  {
    if s.timers != [] && s.tasks[s.timers[0]].expire <= s.clock {
      TimerLeaves(s);
      EnqueueFills(s.(timers := s.timers[1..]), s.timers[0]);
      WakeKeeps(Enqueue(s.(timers := s.timers[1..]), s.timers[0]));
    }
  }

  lemma ClockKeeps(s: State)
    requires InvBut(s, TASKS)
    ensures InvBut(s.(clock := (s.clock + 1) % WORD), TASKS)
  {
    var s1 := s.(clock := (s.clock + 1) % WORD);
    assert Shape(s1) && Lists(s1);
    forall t: nat | t < TASKS
      ensures Placed(s1, t)
    {
      assert Placed(s, t);
    }
  }

  lemma TimerTickKeeps(s: State)
    requires InvBut(s, TASKS) && Cached(s) && RunsReady(s)
    ensures InvBut(TimerTick(s), TASKS) && Cached(TimerTick(s)) && NothingDue(TimerTick(s))
  {
    hide InvBut, TickTask, Wake, Shape;
    InvShape(s);
    ClockKeeps(s);
    var s1 := s.(clock := (s.clock + 1) % WORD);
    ClockShape(s);
    TickKeeps(s1);
    WakeKeeps(TickTask(s1));
  }

  lemma InvShape(s: State)
    requires InvBut(s, TASKS)
    ensures Shape(s)
  {
  }

  lemma ClockShape(s: State)
    requires Shape(s)
    ensures var s1 := s.(clock := (s.clock + 1) % WORD);
            Shape(s1) && (RunsReady(s) ==> RunsReady(s1)) && (Cached(s) ==> Cached(s1))
  {
  }

  // ----- every step

  /** The idle task makes no kernel calls, and sleeping times fit the arithmetic. */
  predicate Enabled(s: State, e: Event) {
    e.Tick? || (s.current != IDLE && (e.Sleep? ==> e.ms <= MAX_MS))
  }

  lemma ChosenReady(s: State)
    requires InvBut(s, TASKS)
    ensures Choose(s.ready) == IDLE || Ready(s, Choose(s.ready))
    ensures Choose(s.ready) < TASKS && s.tasks[Choose(s.ready)].pid != NO_TASK
  {
    if Choose(s.ready) != IDLE {
      assert Placed(s, Choose(s.ready));
    }
  }

  /** The running task gives up its place for one of the others. */
  lemma SleepKeeps(s: State, ms: int)
    requires Settled(s) && s.current != IDLE
    ensures Shape(SleepTask(s, ms)) && InvBut(SleepTask(s, ms), TASKS) && Cached(SleepTask(s, ms))
  {
    ShapeSleep(s, ms);
    if ms > 0 {
      var e := Expiry(s.clock, ms);
      ChosenReady(s);
      DequeueEmpties(s, s.current);
      SleeperEnters(Dequeue(s, s.current), e);
      ShapeTimer(s, e);
      SleepCommutes(s, e);
    }
  }

  lemma SleepCommutes(s: State, e: nat)
    requires Shape(s) && Shape(Dequeue(s, s.current)) && Shape(SetTimer(s, e)) && Ready(s, s.current)
    ensures Dequeue(SetTimer(s, e), s.current) == SetTimer(Dequeue(s, s.current), e)
    ensures Dequeue(SetTimer(s, e), s.current).reschedule
  {
  }

  lemma SendKeeps(s: State, dest: int, contents: Message)
    requires Settled(s) && s.current != IDLE
    ensures Shape(SendMessage(s, dest, contents))
    ensures InvBut(SendMessage(s, dest, contents), TASKS) && Cached(SendMessage(s, dest, contents))
  {
    ShapeSend(s, dest, contents);
    var d := FindTask(s.tasks, dest);
    var c := s.current;
    if d == TASKS {
      ResultKeeps(s, -1, TASKS);
    } else if Accepts(s.tasks[d], s.tasks[c].pid) {
      ReceiverLeaves(s, d, contents);
      EnqueueFills(HandOver(s, d, contents), d);
      ResultKeeps(Enqueue(HandOver(s, d, contents), d), 0, TASKS);
    } else {
      ChosenReady(s);
      DequeueEmpties(s, c);
      SenderEnters(Dequeue(s, c), d, contents);
      ShapeTransfers(s, d, contents);
      QueueUpCommutes(s, d, contents);
      ResultKeeps(QueueUp(Dequeue(s, c), d, contents), 0, TASKS);
    }
    hide InvBut, Shape;
  }

  lemma QueueUpCommutes(s: State, d: nat, contents: Message)
    requires Shape(s) && d < TASKS && Shape(Dequeue(s, s.current)) && Shape(QueueUp(s, d, contents)) && Ready(s, s.current)
    ensures Dequeue(QueueUp(s, d, contents), s.current) == QueueUp(Dequeue(s, s.current), d, contents)
    ensures Dequeue(QueueUp(s, d, contents), s.current).reschedule
  {
  }

  lemma ReceiveKeeps(s: State, from: int, pointer: nat)
    requires Settled(s) && s.current != IDLE
    ensures Shape(ReceiveMessage(s, from, pointer))
    ensures InvBut(ReceiveMessage(s, from, pointer), TASKS) && Cached(ReceiveMessage(s, from, pointer))
  {
    ShapeReceive(s, from, pointer);
    var c := s.current;
    var k := FirstMatch(s.senders[c], s.tasks, from);
    if from == NO_TASK {
      ResultKeeps(s, -1, TASKS);
    } else if k < |s.senders[c]| {
      var x := s.senders[c][k];
      SenderLeaves(s, k);
      EnqueueFills(Take(s, k), x);
      ResultKeeps(Enqueue(Take(s, k), x), 0, TASKS);
    } else {
      ChosenReady(s);
      DequeueEmpties(s, c);
      ReceiverEnters(Dequeue(s, c), from, pointer);
      ShapeAnswers(s, k, from, pointer);
      AwaitCommutes(s, from, pointer);
      ResultKeeps(Await(Dequeue(s, c), from, pointer), 0, TASKS);
    }
    hide InvBut, Shape;
  }

  lemma AwaitCommutes(s: State, from: int, pointer: nat)
    requires Shape(s) && Shape(Dequeue(s, s.current)) && Shape(Await(s, from, pointer)) && Ready(s, s.current)
    ensures Dequeue(Await(s, from, pointer), s.current) == Await(Dequeue(s, s.current), from, pointer)
    ensures Dequeue(Await(s, from, pointer), s.current).reschedule
  {
  }

  lemma HandleKeeps(s: State, e: Event)
    requires Settled(s) && Enabled(s, e)
    ensures Shape(Handle(s, e)) && InvBut(Handle(s, e), TASKS) && Cached(Handle(s, e))
  {
    hide InvBut, TimerTick, SleepTask, PreemptTask, SendMessage, ReceiveMessage;
    SettledMeans(s);
    ShapeHandle(s, e);
    match e
    case Tick => TimerTickKeeps(s);
    case Sleep(ms) =>
      SleepKeeps(s, ms);
      ResultKeeps(SleepTask(s, ms), 0, TASKS);
    case Preempt =>
      PreemptKeeps(s);
      ResultKeeps(PreemptTask(s, s.current), 0, TASKS);
    case GetPid => ResultKeeps(s, s.tasks[s.current].pid, TASKS);
    case Send(dest, contents) => SendKeeps(s, dest, contents);
    case Receive(from, pointer) => ReceiveKeeps(s, from, pointer);
    case Other => ResultKeeps(s, 0, TASKS);
  }

  lemma SettledMeans(s: State)
    requires Settled(s)
    ensures InvBut(s, TASKS) && Cached(s) && Shape(s) && RunsReady(s)
  {
    ChosenReady(s);
  }

  lemma SwitchKeeps(s: State)
    requires InvBut(s, TASKS) && Cached(s)
    ensures InvBut(Switch(s), TASKS)
    ensures var s' := Switch(s); !s'.reschedule && s'.current == s'.next == Choose(s'.ready) && s'.ready == s.ready
    ensures NothingDue(s) ==> NothingDue(Switch(s))
  {
    ShapeSwitch(s);
    var s' := Switch(s);
    assert Lists(s');
    forall t: nat | t < TASKS
      ensures Placed(s', t)
    {
      assert Placed(s, t);
    }
    hide Lists;
  }

  lemma DeliverKeeps(s: State)
    requires InvBut(s, TASKS)
    ensures InvBut(Deliver(s), TASKS) && !Deliver(s).tasks[s.current].delivering
    ensures Deliver(s).current == s.current && Deliver(s).next == s.next && Deliver(s).ready == s.ready
    ensures Deliver(s).reschedule == s.reschedule && (NothingDue(s) ==> NothingDue(Deliver(s)))
  {
    var s' := Deliver(s);
    assert Placed(s, s.current);
    assert Shape(s');
    DeliverLists(s);
    hide Lists, Shape;
    forall t: nat | t < TASKS
      ensures Placed(s', t)
    {
      assert Placed(s, t);
    }
  }

  lemma DeliverLists(s: State)
    requires Shape(s) && Lists(s) && Shape(Deliver(s)) && Placed(s, s.current)
    ensures Lists(Deliver(s))
  {
    hide NoDup;
  }

  lemma ResumeKeeps(s: State)
    requires InvBut(s, TASKS) && Cached(s)
    ensures Shape(s) && Settled(Resume(s))
    ensures NothingDue(s) ==> NothingDue(Resume(s))
  {
    hide InvBut, Shape, NothingDue, Deliver, Switch;
    InvShape(s);
    SwitchKeeps(s);
    InvShape(Switch(s));
    DeliverKeeps(Switch(s));
  }

  /** Every step keeps the invariant and ends with the highest-priority task running. */
  lemma StepKeeps(s: State, e: Event)
    requires Settled(s) && Enabled(s, e)
    ensures Shape(s) && Settled(Step(s, e))
  {
    HandleKeeps(s, e);
    ResumeKeeps(Handle(s, e));
  }

  /** The three ways of a send. */
  lemma SendIs(s: State, dest: int, contents: Message)
    requires Shape(s)
    ensures |s.tasks| == TASKS && s.current < TASKS && Shape(SendMessage(s, dest, contents))
    ensures var d := FindTask(s.tasks, dest);
            && d <= TASKS
            && (d == TASKS ==> SendMessage(s, dest, contents) == SetResult(s, -1))
            && (d < TASKS && Accepts(s.tasks[d], s.tasks[s.current].pid) ==>
                  Shape(HandOver(s, d, contents)) && Shape(Enqueue(HandOver(s, d, contents), d))
                  && SendMessage(s, dest, contents) == SetResult(Enqueue(HandOver(s, d, contents), d), 0))
            && (d < TASKS && !Accepts(s.tasks[d], s.tasks[s.current].pid) ==>
                  Shape(QueueUp(s, d, contents)) && Shape(Dequeue(QueueUp(s, d, contents), s.current))
                  && SendMessage(s, dest, contents) == SetResult(Dequeue(QueueUp(s, d, contents), s.current), 0))
  {
    ShapeSend(s, dest, contents);
    var d := FindTask(s.tasks, dest);
    if d < TASKS {
      ShapeTransfers(s, d, contents);
      ShapeEnqueue(HandOver(s, d, contents), d);
      ShapeDequeue(QueueUp(s, d, contents), s.current);
    }
    hide HandOver, QueueUp, Enqueue, Dequeue, SetResult;
  }

  // ----- the cached choice

  datatype QueueOp = Enter(t: nat) | Leave(t: nat) | Rotate(t: nat) | Scan

  function Do(s: State, op: QueueOp): State
    requires Shape(s)
  {
    match op
    case Enter(t) => if t < TASKS then Enqueue(s, t) else s
    case Leave(t) => if t < TASKS then Dequeue(s, t) else s
    case Rotate(t) => if t < TASKS then ShapeDequeue(s, t); PreemptTask(s, t) else s
    case Scan => Schedule(s)
  }

  function DoAll(s: State, ops: seq<QueueOp>): State
    requires Shape(s)
    decreases |ops|
  {
    if ops == [] then s else ShapeDo(s, ops[0]); DoAll(Do(s, ops[0]), ops[1..])
  }

  lemma ShapeDo(s: State, op: QueueOp)
    requires Shape(s)
    ensures Shape(Do(s, op))
  {
    match op
    case Enter(t) => if t < TASKS { ShapeEnqueue(s, t); }
    case Leave(t) => if t < TASKS { ShapeDequeue(s, t); }
    case Rotate(t) => if t < TASKS { ShapeDequeue(s, t); ShapeEnqueue(Dequeue(s, t), t); }
    case Scan => ShapeSwitch(s);
  }

  /** After any sequence of enqueueing, dequeueing, preempting and scheduling, in any order and of any tasks, the
      scheduler chooses what a full scan of the queues would. */
  lemma {:induction false} CachedAlways(s: State, ops: seq<QueueOp>)
    requires Shape(s) && Cached(s)
    ensures Shape(DoAll(s, ops)) && Cached(DoAll(s, ops))
    ensures Schedule(DoAll(s, ops)).next == Choose(DoAll(s, ops).ready)
    decreases |ops|
  {
    if ops != [] {
      ShapeDo(s, ops[0]);
      match ops[0] {
        case Leave(t) => if t < TASKS { CachedDequeue(s, t); }
        case _ =>
      }
      CachedAlways(Do(s, ops[0]), ops[1..]);
    }
  }
}
