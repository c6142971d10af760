/** Time slices: what a tick does to the running task, and how long its slice lasts. */
module TaskSlices {
  import opened TaskInv
  import opened TaskModel
  import opened TaskRuns

  // ----- one tick

  /** A tick while task c at the head of queue p runs.  Tasks that wake go behind those that are ready.  A task that can not be
      preempted stays at the head as it is; one that can pays one tick and stays, or it has spent its last one, goes to the back
      and has its quantum again. */
  ghost predicate Ticked(s: State, s': State, c: nat, p: nat) {
    && |s'.tasks| == |s.tasks| && |s'.ready| == |s.ready| && c < |s.tasks| && p < |s.ready|
    && s.ready[p] != [] && s.ready[p][0] == c
    && (forall q :: 0 <= q < |s.ready| && q != p ==> s.ready[q] <= s'.ready[q])
    && (forall t: nat :: t < |s.tasks| && t != c ==> s'.tasks[t].ticksLeft == s.tasks[t].ticksLeft)
    && var left := s.tasks[c].ticksLeft;
    if !s.tasks[c].preemptible then s.ready[p] <= s'.ready[p] && s'.tasks[c].ticksLeft == left
    else if left > 1 then s.ready[p] <= s'.ready[p] && s'.tasks[c].ticksLeft == left - 1
    else s.ready[p][1..] + [c] <= s'.ready[p] && s'.tasks[c].ticksLeft == s.tasks[c].quantum
  }

  /** A tick while the idle task runs. */
  ghost predicate Idled(s: State, s': State) {
    && |s'.tasks| == |s.tasks| && |s'.ready| == |s.ready|
    && (forall q :: 0 <= q < |s.ready| ==> s.ready[q] <= s'.ready[q])
    && (forall t: nat :: t < |s.tasks| ==> s'.tasks[t].ticksLeft == s.tasks[t].ticksLeft)
  }

  /** A tick, whichever task runs. */
  ghost predicate Paid(s: State, s': State) {
    && s.current < |s.tasks|
    && if s.current == IDLE then Idled(s, s') else Ticked(s, s', s.current, s.tasks[s.current].priority)
  }

  lemma PaidIs(s: State, s': State)
    requires s.current < |s.tasks|
    ensures Paid(s, s') <==> if s.current == IDLE then Idled(s, s') else Ticked(s, s', s.current, s.tasks[s.current].priority)
  {
    hide Idled, Ticked;
  }

  lemma RunningFacts(s: State)
    requires Settled(s)
    ensures Shape(s) && |s.tasks| == TASKS && |s.ready| == PRIORITIES && s.current < TASKS
    ensures s.current == IDLE ==> !s.tasks[s.current].preemptible
    ensures s.current != IDLE ==>
              var c, p := s.current, s.tasks[s.current].priority;
              && p < PRIORITIES && s.ready[p] != [] && s.ready[p][0] == c && (forall q :: 0 <= q < p ==> s.ready[q] == [])
              && 1 <= s.tasks[c].ticksLeft <= s.tasks[c].quantum < 0x1_0000
  {
    if s.current != IDLE {
      var top := TopQueue(s.ready);
      assert top < PRIORITIES && s.ready[top][0] == s.current;
      assert s.tasks[s.ready[top][0]].priority == top;
      assert Placed(s, s.current);
    }
  }

  lemma TickTaskSlices(s: State, p: nat)
    requires Shape(s) && p == s.tasks[s.current].priority && 1 <= s.tasks[s.current].ticksLeft < 0x1_0000
    requires s.ready[p] != [] && s.ready[p][0] == s.current
    ensures Shape(TickTask(s)) && Ticked(s, TickTask(s), s.current, p)
  {
    hide *;
    TickTaskIs(s, p);
    TickedBy(s, TickTask(s), s.current, p);
  }

  lemma TickTaskIs(s: State, p: nat)
    requires Shape(s) && p == s.tasks[s.current].priority && 1 <= s.tasks[s.current].ticksLeft < 0x1_0000
    requires s.ready[p] != [] && s.ready[p][0] == s.current
    ensures Shape(TickTask(s)) && s.current < |s.tasks| && p < |s.ready|
    ensures var c, left := s.current, s.tasks[s.current].ticksLeft;
            && TickTask(s).tasks == s.tasks[c := s.tasks[c].(ticksLeft := if !s.tasks[c].preemptible then left
                                                                         else if left > 1 then left - 1 else s.tasks[c].quantum)]
            && TickTask(s).ready == if s.tasks[c].preemptible && left == 1 then s.ready[p := s.ready[p][1..] + [c]] else s.ready
  {
    ShapeTick(s);
    var c := s.current;
    if s.tasks[c].preemptible && s.tasks[c].ticksLeft == 1 {
      ShapeDequeue(SetTicks(s, s.tasks[c].quantum), c);
      assert Without(s.ready[p], c) == s.ready[p][1..];
    }
  }

  lemma TickedBy(s: State, s': State, c: nat, p: nat)
    requires c < |s.tasks| && p < |s.ready| && s.ready[p] != [] && s.ready[p][0] == c && 1 <= s.tasks[c].ticksLeft
    requires var left := s.tasks[c].ticksLeft;
             && s'.tasks == s.tasks[c := s.tasks[c].(ticksLeft := if !s.tasks[c].preemptible then left
                                                                  else if left > 1 then left - 1 else s.tasks[c].quantum)]
             && s'.ready == if s.tasks[c].preemptible && left == 1 then s.ready[p := s.ready[p][1..] + [c]] else s.ready
    ensures Ticked(s, s', c, p)
  {
  }

  lemma WokenSlices(s: State, s1: State, s2: State, s3: State, c: nat, p: nat)
    requires s1 == s.(clock := s1.clock) && Ticked(s1, s2, c, p) && s3.tasks == s2.tasks && |s3.ready| == |s2.ready|
    requires forall q: nat :: q < |s2.ready| ==> s2.ready[q] <= s3.ready[q]
    ensures Ticked(s, s3, c, p)
  {
  }

  lemma ResumedSlices(s: State, s3: State, s4: State, c: nat, p: nat)
    requires s4.ready == s3.ready && |s4.tasks| == |s3.tasks|
    requires forall t: nat :: t < |s3.tasks| ==> s4.tasks[t].ticksLeft == s3.tasks[t].ticksLeft
    ensures Ticked(s, s3, c, p) ==> Ticked(s, s4, c, p)
    ensures Idled(s, s3) ==> Idled(s, s4)
  {
  }

  lemma IdleTick(s: State)
    requires Shape(s) && !s.tasks[s.current].preemptible
    ensures TickTask(s) == s
  {
  }

  lemma IdledIs(s: State, s1: State, s3: State)
    requires s1 == s.(clock := s1.clock) && s3.tasks == s1.tasks && |s3.ready| == |s1.ready|
    requires forall q: nat :: q < |s1.ready| ==> s1.ready[q] <= s3.ready[q]
    ensures Idled(s, s3)
  {
  }

  lemma AllGrow(s: State)
    requires Shape(s)
    ensures Wake(s).tasks == s.tasks && |Wake(s).ready| == |s.ready| == PRIORITIES
    ensures forall q: nat :: q < |s.ready| ==> s.ready[q] <= Wake(s).ready[q]
  {
    WakeGrows(s, 0);
    forall q: nat | q < |s.ready|
      ensures s.ready[q] <= Wake(s).ready[q]
    {
      WakeGrows(s, q);
    }
  }

  /** timer_callback: the running task loses one tick of its slice, and its turn with the last one. */
  lemma TimerTickExact(s: State)
    requires Settled(s)
    ensures Shape(s) && Paid(s, TimerTick(s))
  {
    hide *;
    RunningFacts(s);
    PaidIs(s, TimerTick(s));
    var s1 := TickIs(s);
    var s3 := TimerTick(s);
    AllGrow(TickTask(s1));
    if s.current == IDLE {
      IdleTick(s1);
      IdledIs(s, s1, s3);
    } else {
      TickTaskSlices(s1, s.tasks[s.current].priority);
      WokenSlices(s, s1, TickTask(s1), s3, s.current, s.tasks[s.current].priority);
    }
  }

  /** The same with the choice of the next task and the switch to it. */
  lemma TickExact(s: State)
    requires Settled(s)
    ensures Shape(s) && Shape(Step(s, Tick)) && Paid(s, Step(s, Tick))
  {
    hide *;
    RunningFacts(s);
    TimerTickExact(s);
    PaidIs(s, TimerTick(s));
    PaidIs(s, Step(s, Tick));
    var s3 := TimerTick(s);
    StepShape(s, Tick);
    StepIs(s, Tick);
    TickHandled(s);
    ResumeSlices(s3);
    ResumedSlices(s, s3, Step(s, Tick), s.current, if s.current == IDLE then 0 else s.tasks[s.current].priority);
  }

  lemma TickHandled(s: State)
    requires Shape(s)
    ensures Handle(s, Tick) == TimerTick(s)
  {
  }

  // ----- kernel calls

  /** No time slice, priority or quantum is different. */
  ghost predicate SlicesKept(s: State, s': State) {
    && |s'.tasks| == |s.tasks|
    && forall t: nat :: t < |s.tasks| ==>
         && s'.tasks[t].ticksLeft == s.tasks[t].ticksLeft && s'.tasks[t].quantum == s.tasks[t].quantum
         && s'.tasks[t].preemptible == s.tasks[t].preemptible && s'.tasks[t].priority == s.tasks[t].priority
  }

  /** Task c, which was at the head of queue p, is still there, or not on the queue any more. */
  ghost predicate StaysOrLeaves(s: State, s': State, c: nat, p: nat) {
    p < |s.ready| && p < |s'.ready| && (s.ready[p] <= s'.ready[p] || c !in s'.ready[p])
  }

  lemma EnqueueStays(s: State, s1: State, t: nat, r: int, c: nat, p: nat)
    requires Shape(s) && SameTurn(s, s1) && Shape(s1) && t < TASKS && p < PRIORITIES
    ensures Shape(Enqueue(s1, t)) && SlicesKept(s, SetResult(Enqueue(s1, t), r))
    ensures StaysOrLeaves(s, SetResult(Enqueue(s1, t), r), c, p)
  {
    ShapeEnqueue(s1, t);
  }

  lemma DequeueLeaves(s: State, s1: State, r: int, p: nat)
    requires Shape(s) && QueuesOK(s) && SameTurn(s, s1) && Shape(s1) && p == s.tasks[s.current].priority
    ensures Shape(Dequeue(s1, s1.current)) && SlicesKept(s, SetResult(Dequeue(s1, s1.current), r))
    ensures StaysOrLeaves(s, SetResult(Dequeue(s1, s1.current), r), s.current, p)
  {
    ShapeDequeue(s1, s1.current);
    WithoutNoDup(s1.ready[p], s1.current);
  }

  lemma NothingMoves(s: State, r: int, c: nat, p: nat)
    requires Shape(s) && p < PRIORITIES
    ensures SlicesKept(s, SetResult(s, r)) && StaysOrLeaves(s, SetResult(s, r), c, p)
  {
  }

  lemma SendStays(s: State, dest: int, contents: Message, p: nat)
    requires Shape(s) && QueuesOK(s) && p == s.tasks[s.current].priority
    ensures SlicesKept(s, SendMessage(s, dest, contents)) && StaysOrLeaves(s, SendMessage(s, dest, contents), s.current, p)
  {
    var d := FindTask(s.tasks, dest);
    NothingMoves(s, -1, s.current, p);
    if d < TASKS {
      hide QueuesOK, SameTurn, SlicesKept, StaysOrLeaves, HandOver, QueueUp, Enqueue, Dequeue, SetResult;
      MailTurn(s, d, contents, 0, 0, 0);
      ShapeTransfers(s, d, contents);
      QueueUpCurrent(s, d, contents);
      EnqueueStays(s, HandOver(s, d, contents), d, 0, s.current, p);
      DequeueLeaves(s, QueueUp(s, d, contents), 0, p);
    }
  }

  lemma ReceiveStays(s: State, from: int, pointer: nat, p: nat)
    requires Shape(s) && QueuesOK(s) && p == s.tasks[s.current].priority
    ensures SlicesKept(s, ReceiveMessage(s, from, pointer)) && StaysOrLeaves(s, ReceiveMessage(s, from, pointer), s.current, p)
  {
    NothingMoves(s, -1, s.current, p);
    var k := FirstMatch(s.senders[s.current], s.tasks, from);
    AwaitCurrent(s, from, pointer);
    hide QueuesOK, SameTurn, SlicesKept, StaysOrLeaves, Take, Await, Enqueue, Dequeue, SetResult;
    MailTurn(s, s.current, Zeros(), k, from, pointer);
    ShapeAnswers(s, k, from, pointer);
    if from != NO_TASK {
      if k < |s.senders[s.current]| {
        EnqueueStays(s, Take(s, k), s.senders[s.current][k], 0, s.current, p);
      } else {
        DequeueLeaves(s, Await(s, from, pointer), 0, p);
      }
    }
  }

  lemma AwaitCurrent(s: State, from: int, pointer: nat)
    requires Shape(s)
    ensures Await(s, from, pointer).current == s.current
  {
  }

  lemma SleepStays(s: State, ms: int, p: nat)
    requires Shape(s) && QueuesOK(s) && p == s.tasks[s.current].priority
    ensures Shape(SleepTask(s, ms)) && SlicesKept(s, SetResult(SleepTask(s, ms), 0))
    ensures StaysOrLeaves(s, SetResult(SleepTask(s, ms), 0), s.current, p)
  {
    ShapeSleep(s, ms);
    NothingMoves(s, 0, s.current, p);
    if ms > 0 {
      hide QueuesOK, SameTurn, SlicesKept, StaysOrLeaves, SetTimer, Dequeue, SetResult;
      TimerTurn(s, Expiry(s.clock, ms));
      DequeueLeaves(s, SetTimer(s, Expiry(s.clock, ms)), 0, p);
    }
  }

  lemma PreemptSlices(s: State)
    requires Shape(s)
    ensures SlicesKept(s, Handle(s, Preempt))
  {
    ShapePreempt(s);
  }

  /** A kernel call that does not give way leaves the caller at the head of its queue or blocks it. */
  lemma CallStays(s: State, e: Event, p: nat)
    requires Shape(s) && QueuesOK(s) && !e.Tick? && p == s.tasks[s.current].priority && p < PRIORITIES
    ensures Shape(Handle(s, e)) && SlicesKept(s, Handle(s, e))
    ensures e != Preempt ==> StaysOrLeaves(s, Handle(s, e), s.current, p)
  {
    ShapeHandle(s, e);
    PreemptSlices(s);
    hide QueuesOK, SlicesKept, StaysOrLeaves, SendMessage, ReceiveMessage, SleepTask, SetResult, Shape, PreemptTask;
    match e
    case Sleep(ms) => SleepStays(s, ms, p);
    case GetPid =>
      ShapeIs(s);
      NothingMoves(s, s.tasks[s.current].pid, s.current, p);
    case Send(dest, contents) => SendStays(s, dest, contents, p);
    case Receive(from, pointer) => ReceiveStays(s, from, pointer, p);
    case Other => NothingMoves(s, 0, s.current, p);
    case Preempt =>
  }

  /** Only ticks cost anything. */
  lemma CallsCostNothing(s: State, e: Event)
    requires Settled(s) && !e.Tick?
    ensures Shape(s) && Shape(Step(s, e)) && SlicesKept(s, Step(s, e))
  {
    hide *;
    QueuesSettled(s);
    CallStays(s, e, s.tasks[s.current].priority);
    StepShape(s, e);
    StepIs(s, e);
    ResumeKept(s, Handle(s, e));
  }

  /** A task that preempts itself goes to the back of its queue and keeps its ticks. */
  lemma PreemptExact(s: State)
    requires Settled(s) && s.current != IDLE
    ensures Shape(s) && Shape(Step(s, Preempt)) && SlicesKept(s, Step(s, Preempt))
    ensures var c, p := s.current, s.tasks[s.current].priority;
            && p < |s.ready| && s.ready[p] != [] && s.ready[p][0] == c
            && Step(s, Preempt).ready == s.ready[p := s.ready[p][1..] + [c]]
  {
    hide *;
    RunningFacts(s);
    CallsCostNothing(s, Preempt);
    PreemptQueue(s, s.tasks[s.current].priority);
    StepShape(s, Preempt);
    StepIs(s, Preempt);
    ResumeKept(s, Handle(s, Preempt));
  }

  lemma PreemptQueue(s: State, p: nat)
    requires Shape(s) && p == s.tasks[s.current].priority && s.ready[p] != [] && s.ready[p][0] == s.current
    ensures Handle(s, Preempt).ready == s.ready[p := s.ready[p][1..] + [s.current]]
  {
    ShapePreempt(s);
    assert Without(s.ready[p], s.current) == s.ready[p][1..];
  }

  lemma QueuesSettled(s: State)
    requires Settled(s)
    ensures Shape(s) && QueuesOK(s) && s.current < |s.tasks| && s.tasks[s.current].priority < PRIORITIES
  {
  }

  lemma ResumeKept(s: State, s1: State)
    requires Shape(s1)
    ensures Resume(s1).ready == s1.ready
    ensures SlicesKept(s, s1) ==> SlicesKept(s, Resume(s1))
  {
    ShapeSwitch(s1);
  }

  // ----- a slice

  /** Over the run task c does not give way, it is always ready on queue p, and no queue above that gets a task. */
  ghost predicate Undisturbed(s: State, es: seq<Event>, c: nat, p: nat)
    requires Shape(s) && Runnable(s, es)
    decreases |es|
  {
    es == [] || (es[0] != Preempt && OnTop(Step(s, es[0]), c, p) && Undisturbed(Step(s, es[0]), es[1..], c, p))
  }

  ghost predicate OnTop(s: State, c: nat, p: nat) {
    p < |s.ready| && c in s.ready[p] && forall q :: 0 <= q < p ==> s.ready[q] == []
  }

  lemma UndisturbedFirst(s: State, es: seq<Event>, c: nat, p: nat)
    requires Shape(s) && Runnable(s, es) && Undisturbed(s, es, c, p) && es != []
    ensures Shape(Step(s, es[0])) && Runnable(Step(s, es[0]), es[1..]) && es[0] != Preempt
    ensures OnTop(Step(s, es[0]), c, p) && Undisturbed(Step(s, es[0]), es[1..], c, p)
  {
  }

  /** Task c runs and its slice is not over. */
  ghost predicate Runs(s: State, c: nat, p: nat, preemptible: bool, quantum: nat, left: nat) {
    && Settled(s) && c < |s.tasks| && s.current == c != IDLE
    && s.tasks[c].priority == p && s.tasks[c].preemptible == preemptible && s.tasks[c].quantum == quantum
    && s.tasks[c].ticksLeft == left
  }

  lemma RunsIs(s: State, c: nat, p: nat, preemptible: bool, quantum: nat, left: nat)
    ensures Runs(s, c, p, preemptible, quantum, left) <==>
              && Settled(s) && c < |s.tasks| && s.current == c && c != IDLE
              && s.tasks[c].priority == p && s.tasks[c].preemptible == preemptible && s.tasks[c].quantum == quantum
              && s.tasks[c].ticksLeft == left
  {
    hide Settled;
  }

  lemma HeadRuns(s: State, s': State, c: nat, p: nat)
    requires Settled(s') && OnTop(s', c, p) && p < |s.ready| && s.ready[p] != [] && s.ready[p][0] == c
    requires StaysOrLeaves(s, s', c, p)
    ensures s'.current == c
  {
    TopQueueIs(s'.ready, p);
  }

  lemma TickStays(s: State, s': State, c: nat, p: nat)
    requires Ticked(s, s', c, p) && (s.tasks[c].preemptible ==> s.tasks[c].ticksLeft > 1)
    ensures StaysOrLeaves(s, s', c, p) && c < |s.tasks| == |s'.tasks|
    ensures s'.tasks[c].ticksLeft == s.tasks[c].ticksLeft - if s.tasks[c].preemptible then 1 else 0
  {
  }

  /** Priorities, quanta and whether a task can be preempted never change. */
  lemma TickFixed(s: State)
    requires Settled(s)
    ensures Shape(s) && Shape(Step(s, Tick)) && |Step(s, Tick).tasks| == |s.tasks|
    ensures forall t: nat :: t < |s.tasks| ==>
              && Step(s, Tick).tasks[t].quantum == s.tasks[t].quantum
              && Step(s, Tick).tasks[t].preemptible == s.tasks[t].preemptible
              && Step(s, Tick).tasks[t].priority == s.tasks[t].priority
  {
    hide Settled, TickTask, Wake, Resume, Handle, TimerTick;
    RunningFacts(s);
    var s1 := TickIs(s);
    TickTaskFixed(s1);
    WakeGrows(TickTask(s1), 0);
    StepShape(s, Tick);
    StepIs(s, Tick);
    TickHandled(s);
    ResumeFixed(TimerTick(s));
  }

  lemma TickTaskFixed(s: State)
    requires Shape(s)
    ensures Shape(TickTask(s)) && |TickTask(s).tasks| == |s.tasks|
    ensures forall t: nat :: t < |s.tasks| ==>
              && TickTask(s).tasks[t].quantum == s.tasks[t].quantum
              && TickTask(s).tasks[t].preemptible == s.tasks[t].preemptible && TickTask(s).tasks[t].priority == s.tasks[t].priority
  {
    ShapeTick(s);
    ShapeDequeue(SetTicks(s, s.tasks[s.current].quantum), s.current);
  }

  lemma ResumeFixed(s: State)
    requires Shape(s)
    ensures |Resume(s).tasks| == |s.tasks|
    ensures forall t: nat :: t < |s.tasks| ==>
              && Resume(s).tasks[t].quantum == s.tasks[t].quantum
              && Resume(s).tasks[t].preemptible == s.tasks[t].preemptible && Resume(s).tasks[t].priority == s.tasks[t].priority
  {
    ShapeSwitch(s);
  }

  lemma StepRuns(s: State, e: Event, c: nat, p: nat, preemptible: bool, quantum: nat, left: nat)
    requires Runs(s, c, p, preemptible, quantum, left) && Shape(s) && Enabled(s, e) && Shape(Step(s, e)) && OnTop(Step(s, e), c, p)
    requires e != Preempt && (preemptible ==> TickOf(e) < left)
    ensures left >= TickOf(e) || !preemptible
    ensures Runs(Step(s, e), c, p, preemptible, quantum, if preemptible then left - TickOf(e) else left)
  {
    hide *;
    var s' := Step(s, e);
    RunsIs(s, c, p, preemptible, quantum, left);
    RunningFacts(s);
    StepKeeps(s, e);
    TickOfIs(e);
    if e.Tick? {
      TickExact(s);
      PaidIs(s, s');
      TickStays(s, s', c, p);
      TickFixed(s);
    } else {
      QueuesSettled(s);
      CallStays(s, e, p);
      StepShape(s, e);
      StepIs(s, e);
      ResumeKept(s, Handle(s, e));
      KeptIs(s, s', c);
      StaysSame(s, Handle(s, e), s', c, p);
    }
    HeadRuns(s, s', c, p);
    RunsIs(s', c, p, preemptible, quantum, if preemptible then left - TickOf(e) else left);
  }

  lemma KeptIs(s: State, s': State, c: nat)
    requires SlicesKept(s, s') && c < |s.tasks|
    ensures |s'.tasks| == |s.tasks| && s'.tasks[c].ticksLeft == s.tasks[c].ticksLeft && s'.tasks[c].quantum == s.tasks[c].quantum
    ensures s'.tasks[c].preemptible == s.tasks[c].preemptible && s'.tasks[c].priority == s.tasks[c].priority
  {
  }

  lemma StaysSame(s: State, s1: State, s': State, c: nat, p: nat)
    requires StaysOrLeaves(s, s1, c, p) && s'.ready == s1.ready
    ensures StaysOrLeaves(s, s', c, p)
  {
  }

  /** An undisturbed task pays for each tick and runs on until its ticks are used up; one that can not be preempted runs on. */
  lemma {:induction false} RunSlice(s: State, es: seq<Event>, c: nat, p: nat, preemptible: bool, quantum: nat, left: nat)
    requires Runs(s, c, p, preemptible, quantum, left) && Shape(s) && Runnable(s, es) && Undisturbed(s, es, c, p)
    requires preemptible ==> Ticks(es) < left
    ensures Runs(Run(s, es), c, p, preemptible, quantum, if preemptible then left - Ticks(es) else left)
    decreases |es|
  {
    hide *;
    RunNone(s, es);
    if es == [] {
      RunEnds(s, es);
    } else {
      RunFirst(s, es);
      UndisturbedFirst(s, es, c, p);
      StepRuns(s, es[0], c, p, preemptible, quantum, left);
      RunSlice(Step(s, es[0]), es[1..], c, p, preemptible, quantum, if preemptible then left - TickOf(es[0]) else left);
    }
  }

  /** The slice of task c is over with this tick: c goes to the back with a new quantum, and if another task was on its queue that
      runs, unless the tick wakes a task on a higher queue. */
  ghost predicate SliceOver(s: State, s': State, c: nat, p: nat, quantum: nat) {
    && p < |s.ready| && p < |s'.ready| && c < |s'.tasks| && s.ready[p] != []
    && s.ready[p][1..] + [c] <= s'.ready[p] && s'.tasks[c].ticksLeft == quantum
    && (|s.ready[p]| > 1 && (forall q :: 0 <= q < p ==> s'.ready[q] == []) ==> s'.current == s.ready[p][1])
  }

  lemma OverNow(s: State, c: nat, p: nat, quantum: nat)
    requires Runs(s, c, p, true, quantum, 1)
    ensures Shape(s) && Shape(Step(s, Tick)) && SliceOver(s, Step(s, Tick), c, p, quantum)
  {
    hide *;
    RunsIs(s, c, p, true, quantum, 1);
    RunningFacts(s);
    TickExact(s);
    PaidIs(s, Step(s, Tick));
    StepKeeps(s, Tick) by {
      TickEnabled(s);
    }
    OverIs(s, Step(s, Tick), c, p, quantum);
  }

  lemma TickEnabled(s: State)
    ensures Enabled(s, Tick)
  {
  }

  lemma OverIs(s: State, s': State, c: nat, p: nat, quantum: nat)
    requires Ticked(s, s', c, p) && Settled(s') && s.tasks[c].preemptible
    requires s.tasks[c].ticksLeft == 1 && s.tasks[c].quantum == quantum
    ensures SliceOver(s, s', c, p, quantum)
  {
    if |s.ready[p]| > 1 && forall q :: 0 <= q < p ==> s'.ready[q] == [] {
      assert (s.ready[p][1..] + [c])[0] == s.ready[p][1];
      TopQueueIs(s'.ready, p);
    }
  }

  /** Over every run: a running task that neither gives way nor blocks, while no task gets ready above it, runs as long as fewer
      ticks have passed than it has left, and its slice is over exactly with the last of them. */
  lemma SliceExact(s: State, es: seq<Event>)
    requires Settled(s) && Shape(s) && s.current != IDLE && s.tasks[s.current].preemptible && Runnable(s, es)
    requires Undisturbed(s, es, s.current, s.tasks[s.current].priority) && Ticks(es) < s.tasks[s.current].ticksLeft
    ensures var c, s' := s.current, Run(s, es);
            && s'.current == c && |s'.tasks| == |s.tasks| && s'.tasks[c].ticksLeft == s.tasks[c].ticksLeft - Ticks(es)
            && (Ticks(es) == s.tasks[c].ticksLeft - 1 ==>
                  Shape(s') && Shape(Step(s', Tick)) && SliceOver(s', Step(s', Tick), c, s.tasks[c].priority, s.tasks[c].quantum))
  {
    hide *;
    RunningFacts(s);
    var c, p, quantum, left := s.current, s.tasks[s.current].priority, s.tasks[s.current].quantum, s.tasks[s.current].ticksLeft;
    RunsIs(s, c, p, true, quantum, left);
    RunSlice(s, es, c, p, true, quantum, left);
    RunsIs(Run(s, es), c, p, true, quantum, left - Ticks(es));
    RunningFacts(Run(s, es));
    if Ticks(es) == left - 1 {
      OverNow(Run(s, es), c, p, quantum);
    }
  }

  /** A task that can not be preempted and is not disturbed runs however many ticks pass. */
  lemma NotPreempted(s: State, es: seq<Event>)
    requires Settled(s) && Shape(s) && s.current != IDLE && !s.tasks[s.current].preemptible && Runnable(s, es)
    requires Undisturbed(s, es, s.current, s.tasks[s.current].priority)
    ensures Run(s, es).current == s.current && |Run(s, es).tasks| == |s.tasks|
    ensures Run(s, es).tasks[s.current].ticksLeft == s.tasks[s.current].ticksLeft
  {
    hide *;
    RunningFacts(s);
    var c, p, quantum, left := s.current, s.tasks[s.current].priority, s.tasks[s.current].quantum, s.tasks[s.current].ticksLeft;
    RunsIs(s, c, p, false, quantum, left);
    RunSlice(s, es, c, p, false, quantum, left);
    RunsIs(Run(s, es), c, p, false, quantum, left);
    RunningFacts(Run(s, es));
  }
}
