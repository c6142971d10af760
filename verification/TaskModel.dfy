/**
 Tasks, ready queues, timers and messages of the kernel as one state machine.  A step is a clock tick or a
 kernel call of the running task, followed by the choice of the next task and the switch to it.
 Tasks are slots of the process table; the lists that the kernel threads through the task records are
 sequences of slots here.
 */
module TaskModel {
  const TASKS: nat := 10
  const PRIORITIES: nat := 17
  const IDLE: nat := 0
  const QUANTUM: nat := 10
  const NO_TASK: int := -0x8000_0000
  const ALL_TASKS: int := -0x7FFF_FFFF
  const WORD: nat := 0x1_0000_0000
  /** 1000 * ms + 999 is an int up to here. */
  const MAX_MS: int := 2147482

  newtype byte = x: int | 0 <= x < 256
  type Message = seq<byte>

  function Zeros(): Message {
    seq(64, _ => 0)
  }

  /** A task record.  origin is the sender of a message about to be delivered; the kernel does not store it. */
  datatype Task = Task(
    pid: int, priority: nat, preemptible: bool, afterSwitch: bool, quantum: nat, ticksLeft: nat, expire: nat,
    buffer: Message, pointer: nat, sending: bool, receiving: bool, delivering: bool, sendTo: int, recPid: int,
    result: int, origin: int)

  /** A message that was accepted from one task for another one. */
  datatype Letter = Letter(from: nat, to: nat, contents: Message)

  datatype State = State(
    tasks: seq<Task>, ready: seq<seq<nat>>, timers: seq<nat>, senders: seq<seq<nat>>,
    current: nat, next: nat, reschedule: bool, clock: nat, sent: seq<Letter>, handed: seq<Letter>)

  datatype Event =
    | Tick
    | Sleep(ms: int)
    | Preempt
    | GetPid
    | Send(dest: int, contents: Message)
    | Receive(from: int, pointer: nat)
    | Other

  ghost predicate Shape(s: State) {
    && |s.tasks| == TASKS && |s.ready| == PRIORITIES && |s.senders| == TASKS
    && s.current < TASKS && s.next < TASKS
    && (forall t :: 0 <= t < TASKS ==> s.tasks[t].priority < PRIORITIES)
    && (forall p, i :: 0 <= p < PRIORITIES && 0 <= i < |s.ready[p]| ==> s.ready[p][i] < TASKS)
    && (forall i :: 0 <= i < |s.timers| ==> s.timers[i] < TASKS)
    && (forall d, i :: 0 <= d < TASKS && 0 <= i < |s.senders[d]| ==> s.senders[d][i] < TASKS)
  }

  // ----- ready queues

  /** xs without its first t. */
  function Without(xs: seq<nat>, t: nat): seq<nat> {
    if xs == [] then [] else if xs[0] == t then xs[1..] else [xs[0]] + Without(xs[1..], t)
  }

  function Enqueue(s: State, t: nat): State
    requires Shape(s) && t < TASKS
  {
    var p := s.tasks[t].priority;
    s.(ready := s.ready[p := s.ready[p] + [t]], reschedule := true)
  }

  function Dequeue(s: State, t: nat): State
    requires Shape(s) && t < TASKS
  {
    var p := s.tasks[t].priority;
    if t in s.ready[p] then
      s.(ready := s.ready[p := Without(s.ready[p], t)], reschedule := s.reschedule || t == s.current || t == s.next)
    else s
  }

  /** The highest-priority queue that is not empty, or the number of queues. */
  function TopQueue(ready: seq<seq<nat>>): (p: nat)
    ensures p <= |ready| && (p < |ready| ==> ready[p] != [])
    ensures forall q :: 0 <= q < p ==> ready[q] == []
  {
    if ready == [] || ready[0] != [] then 0
    else
      var rest := TopQueue(ready[1..]);
      assert forall q :: 1 <= q < 1 + rest ==> ready[q] == ready[1..][q - 1];
      1 + rest
  }

  /** Its head, or the idle task. */
  function Choose(ready: seq<seq<nat>>): nat {
    if TopQueue(ready) == |ready| then IDLE else ready[TopQueue(ready)][0]
  }

  function Schedule(s: State): State {
    if s.reschedule then s.(reschedule := false, next := Choose(s.ready)) else s
  }

  function PreemptTask(s: State, t: nat): State
    requires Shape(s) && t < TASKS
    requires Shape(Dequeue(s, t))
  {
    Enqueue(Dequeue(s, t), t)
  }

  // ----- timers

  /** Place of a new expiry in the timer list: behind everything that expires no later. */
  function TimerPlace(timers: seq<nat>, tasks: seq<Task>, expire: nat): (k: nat)
    requires forall i :: 0 <= i < |timers| ==> timers[i] < |tasks|
    ensures k <= |timers|
    ensures forall i :: 0 <= i < k ==> tasks[timers[i]].expire <= expire
    ensures k < |timers| ==> tasks[timers[k]].expire > expire
  {
    if timers == [] || tasks[timers[0]].expire > expire then 0
    else
      var rest := TimerPlace(timers[1..], tasks, expire);
      assert forall i :: 1 <= i < 1 + rest ==> timers[i] == timers[1..][i - 1];
      1 + rest
  }

  function Expiry(clock: nat, ms: int): nat
    requires 0 < ms
  {
    ((1000 * ms + 999) / 1000 + clock) % WORD
  }

  /** The running task joins the timer list. */
  function SetTimer(s: State, expire: nat): State
    requires Shape(s)
  {
    var tasks := s.tasks[s.current := s.tasks[s.current].(expire := expire)];
    var k := TimerPlace(s.timers, tasks, expire);
    s.(tasks := tasks, timers := s.timers[..k] + [s.current] + s.timers[k..])
  }

  function SleepTask(s: State, ms: int): State
    requires Shape(s)
  {
    if ms <= 0 then s
    else
      ShapeTimer(s, Expiry(s.clock, ms));
      Dequeue(SetTimer(s, Expiry(s.clock, ms)), s.current)
  }

  /** All timers that have expired fire, in the order of the list. */
  function Wake(s: State): State
    requires Shape(s)
    decreases |s.timers|
  {
    if s.timers == [] || s.tasks[s.timers[0]].expire > s.clock then s
    else
      var t := s.timers[0];
      var s1 := Enqueue(s.(timers := s.timers[1..]), t);
      assert Shape(s1) by { ShapeEnqueue(s.(timers := s.timers[1..]), t); }
      Wake(s1)
  }

  /** ticks_left--, on 16 bits */
  function OneLess(ticks: nat): (left: nat)
    ensures 0 < ticks <= 0x1_0000 ==> left == ticks - 1
    ensures ticks == 0 ==> left == 0xFFFF
  {
    (ticks + 0xFFFF) % 0x1_0000
  }

  function SetTicks(s: State, ticks: nat): State
    requires Shape(s)
  {
    s.(tasks := s.tasks[s.current := s.tasks[s.current].(ticksLeft := ticks)])
  }

  /** A preemptible running task loses a tick of its quantum; at the end of it, it goes to the back of its
      queue with a new one. */
  function TickTask(s: State): State
    requires Shape(s)
  {
    var t := s.tasks[s.current];
    if !t.preemptible then s
    else if OneLess(t.ticksLeft) != 0 then SetTicks(s, OneLess(t.ticksLeft))
    else
      assert Shape(SetTicks(s, t.quantum));
      ShapeDequeue(SetTicks(s, t.quantum), s.current);
      PreemptTask(SetTicks(s, t.quantum), s.current)
  }

  function TimerTick(s: State): State
    requires Shape(s)
  {
    var s1 := s.(clock := (s.clock + 1) % WORD);
    assert Shape(s1);
    ShapeTick(s1);
    Wake(TickTask(s1))
  }

  // ----- messages

  /** The slot of a process id, or TASKS if there is none. */
  function FindTask(tasks: seq<Task>, pid: int): (t: nat)
    ensures t <= |tasks|
  {
    if pid == ALL_TASKS || pid == NO_TASK then |tasks| else FirstWithPid(tasks, pid, 0)
  }

  function FirstWithPid(tasks: seq<Task>, pid: int, i: nat): (t: nat)
    requires i <= |tasks|
    ensures i <= t <= |tasks|
    ensures t < |tasks| ==> tasks[t].pid == pid
    ensures forall j :: i <= j < t ==> tasks[j].pid != pid
    decreases |tasks| - i
  {
    if i == |tasks| || tasks[i].pid == pid then i else FirstWithPid(tasks, pid, i + 1)
  }

  predicate Accepts(receiver: Task, pid: int) {
    receiver.receiving && (receiver.recPid == pid || receiver.recPid == ALL_TASKS)
  }

  /** A task waiting for the message gets it into its buffer and becomes ready. */
  function HandOver(s: State, d: nat, contents: Message): State
    requires Shape(s) && d < TASKS
  {
    s.(tasks := s.tasks[d := s.tasks[d].(buffer := contents, receiving := false, delivering := true,
                                         afterSwitch := true, origin := s.current)],
       sent := s.sent + [Letter(s.current, d, contents)])
  }

  /** The sender keeps the message and joins the destination's queue. */
  function QueueUp(s: State, d: nat, contents: Message): State
    requires Shape(s) && d < TASKS
  {
    s.(tasks := s.tasks[s.current := s.tasks[s.current].(sending := true, sendTo := d, buffer := contents)],
       senders := s.senders[d := s.senders[d] + [s.current]],
       sent := s.sent + [Letter(s.current, d, contents)])
  }

  function SendMessage(s: State, dest: int, contents: Message): State
    requires Shape(s)
  {
    var d := FindTask(s.tasks, dest);
    if d == TASKS then SetResult(s, -1)
    else if Accepts(s.tasks[d], s.tasks[s.current].pid) then
      ShapeEnqueue(HandOver(s, d, contents), d);
      SetResult(Enqueue(HandOver(s, d, contents), d), 0)
    else
      ShapeDequeue(QueueUp(s, d, contents), s.current);
      SetResult(Dequeue(QueueUp(s, d, contents), s.current), 0)
  }

  /** The first queued sender the receiver wants, or the length of the queue. */
  function FirstMatch(queue: seq<nat>, tasks: seq<Task>, from: int): (k: nat)
    requires forall i :: 0 <= i < |queue| ==> queue[i] < |tasks|
    ensures k <= |queue|
    ensures k < |queue| ==> from == ALL_TASKS || from == tasks[queue[k]].pid
    ensures forall j :: 0 <= j < k ==> from != ALL_TASKS && from != tasks[queue[j]].pid
  {
    if queue == [] || from == ALL_TASKS || from == tasks[queue[0]].pid then 0
    else
      var rest := FirstMatch(queue[1..], tasks, from);
      assert forall j :: 1 <= j < 1 + rest ==> queue[j] == queue[1..][j - 1];
      1 + rest
  }

  /** The k-th queued sender's message is handed to the running task. */
  function Take(s: State, k: nat): State
    requires Shape(s) && k < |s.senders[s.current]|
  {
    var c := s.current;
    var x := s.senders[c][k];
    s.(tasks := s.tasks[x := s.tasks[x].(sending := false, sendTo := -1)],
       senders := s.senders[c := s.senders[c][..k] + s.senders[c][k + 1..]],
       handed := s.handed + [Letter(x, c, s.tasks[x].buffer)])
  }

  function Await(s: State, from: int, pointer: nat): State
    requires Shape(s)
  {
    s.(tasks := s.tasks[s.current := s.tasks[s.current].(pointer := pointer, recPid := from, receiving := true)])
  }

  function ReceiveMessage(s: State, from: int, pointer: nat): State
    requires Shape(s)
  {
    var k := FirstMatch(s.senders[s.current], s.tasks, from);
    if from == NO_TASK then SetResult(s, -1)
    else if k < |s.senders[s.current]| then
      ShapeEnqueue(Take(s, k), s.senders[s.current][k]);
      SetResult(Enqueue(Take(s, k), s.senders[s.current][k]), 0)
    else
      ShapeDequeue(Await(s, from, pointer), s.current);
      SetResult(Dequeue(Await(s, from, pointer), s.current), 0)
  }

  /** The result of the kernel call, in the running task's eax. */
  function SetResult(s: State, r: int): State
    requires |s.tasks| == TASKS && s.current < TASKS
  {
    s.(tasks := s.tasks[s.current := s.tasks[s.current].(result := r)])
  }

  /** after_context_switch: a message that was waiting for the task is copied to where it wanted it. */
  function Deliver(s: State): State
    requires Shape(s)
  {
    var c := s.current;
    var t := s.tasks[c];
    if !t.afterSwitch then s
    else if !t.delivering then s.(tasks := s.tasks[c := t.(afterSwitch := false)])
    else
      s.(tasks := s.tasks[c := t.(afterSwitch := false, delivering := false, buffer := Zeros(), recPid := NO_TASK,
                                  pointer := 0, result := 0)],
         handed := if t.origin >= 0 then s.handed + [Letter(t.origin, c, t.buffer)] else s.handed)
  }

  // ----- steps

  function Handle(s: State, e: Event): State
    requires Shape(s)
  {
    match e
    case Tick => TimerTick(s)
    case Sleep(ms) => ShapeSleep(s, ms); SetResult(SleepTask(s, ms), 0)
    case Preempt => ShapeDequeue(s, s.current); SetResult(PreemptTask(s, s.current), 0)
    case GetPid => SetResult(s, s.tasks[s.current].pid)
    case Send(dest, contents) => SendMessage(s, dest, contents)
    case Receive(from, pointer) => ReceiveMessage(s, from, pointer)
    case Other => SetResult(s, 0)
  }

  function Switch(s: State): State
    requires Shape(s)
  {
    var s1 := Schedule(s);
    s1.(current := s1.next)
  }

  /** resume: schedule, switch, deliver. */
  function Resume(s: State): State
    requires Shape(s)
  {
    ShapeSwitch(s);
    Deliver(Switch(s))
  }

  function Step(s: State, e: Event): State
    requires Shape(s)
  {
    ShapeHandle(s, e);
    Resume(Handle(s, e))
  }

  // ----- shapes

  lemma {:induction false} WithoutIn(xs: seq<nat>, t: nat, y: nat)
    ensures y in Without(xs, t) ==> y in xs
    ensures y in xs && y != t ==> y in Without(xs, t)
  {
    if xs != [] && xs[0] != t {
      WithoutIn(xs[1..], t, y);
    }
  }

  lemma ShapeEnqueue(s: State, t: nat)
    requires Shape(s) && t < TASKS
    ensures Shape(Enqueue(s, t))
  {
  }

  lemma ShapeDequeue(s: State, t: nat)
    requires Shape(s) && t < TASKS
    ensures Shape(Dequeue(s, t)) && Dequeue(s, t).tasks == s.tasks
  {
    var p := s.tasks[t].priority;
    forall i | 0 <= i < |Without(s.ready[p], t)|
      ensures Without(s.ready[p], t)[i] < TASKS
    {
      WithoutIn(s.ready[p], t, Without(s.ready[p], t)[i]);
    }
  }

  lemma ShapeTick(s: State)
    requires Shape(s)
    ensures Shape(TickTask(s))
  {
    var t := s.tasks[s.current];
    if t.preemptible && OneLess(t.ticksLeft) == 0 {
      ShapeDequeue(SetTicks(s, t.quantum), s.current);
      ShapeEnqueue(Dequeue(SetTicks(s, t.quantum), s.current), s.current);
    }
  }

  lemma {:induction false} ShapeWake(s: State)
    requires Shape(s)
    ensures Shape(Wake(s))
    decreases |s.timers|
  {
    if s.timers != [] && s.tasks[s.timers[0]].expire <= s.clock {
      ShapeEnqueue(s.(timers := s.timers[1..]), s.timers[0]);
      ShapeWake(Enqueue(s.(timers := s.timers[1..]), s.timers[0]));
    }
  }

  lemma ShapeTimer(s: State, expire: nat)
    requires Shape(s)
    ensures Shape(SetTimer(s, expire))
  {
  }

  lemma ShapeSleep(s: State, ms: int)
    requires Shape(s)
    ensures Shape(SleepTask(s, ms))
  {
    if ms > 0 {
      ShapeTimer(s, Expiry(s.clock, ms));
      ShapeDequeue(SetTimer(s, Expiry(s.clock, ms)), s.current);
    }
    hide SetTimer, Dequeue;
  }

  lemma ShapeResult(s: State, r: int)
    requires Shape(s)
    ensures Shape(SetResult(s, r))
  {
  }

  lemma ShapeTransfers(s: State, d: nat, contents: Message)
    requires Shape(s) && d < TASKS
    ensures Shape(HandOver(s, d, contents)) && Shape(QueueUp(s, d, contents))
  {
  }

  lemma ShapeAnswers(s: State, k: nat, from: int, pointer: nat)
    requires Shape(s)
    ensures Shape(Await(s, from, pointer))
    ensures k < |s.senders[s.current]| ==> Shape(Take(s, k)) && s.senders[s.current][k] < TASKS
  {
  }

  lemma ShapeSend(s: State, dest: int, contents: Message)
    requires Shape(s)
    ensures Shape(SendMessage(s, dest, contents))
  {
    var d := FindTask(s.tasks, dest);
    if d < TASKS {
      ShapeTransfers(s, d, contents);
      ShapeEnqueue(HandOver(s, d, contents), d);
      ShapeResult(Enqueue(HandOver(s, d, contents), d), 0);
      ShapeDequeue(QueueUp(s, d, contents), s.current);
      ShapeResult(Dequeue(QueueUp(s, d, contents), s.current), 0);
    }
    hide HandOver, QueueUp, Enqueue, Dequeue, SetResult;
  }

  lemma ShapeReceive(s: State, from: int, pointer: nat)
    requires Shape(s)
    ensures Shape(ReceiveMessage(s, from, pointer))
  {
    hide HandOver, QueueUp, Enqueue, Dequeue, SetResult, Take, Await;
    var k := FirstMatch(s.senders[s.current], s.tasks, from);
    ShapeAnswers(s, k, from, pointer);
    if k < |s.senders[s.current]| {
      ShapeEnqueue(Take(s, k), s.senders[s.current][k]);
      ShapeResult(Enqueue(Take(s, k), s.senders[s.current][k]), 0);
    }
    ShapeDequeue(Await(s, from, pointer), s.current);
    ShapeResult(Dequeue(Await(s, from, pointer), s.current), 0);
    ShapeResult(s, -1);
  }

  lemma ShapeHandle(s: State, e: Event)
    requires Shape(s)
    ensures Shape(Handle(s, e))
  {
    match e
    case Tick =>
      var s1 := s.(clock := (s.clock + 1) % WORD);
      ShapeTick(s1);
      ShapeWake(TickTask(s1));
    case Sleep(ms) => ShapeSleep(s, ms);
    case Preempt =>
      ShapeDequeue(s, s.current);
      ShapeEnqueue(Dequeue(s, s.current), s.current);
    case Send(dest, contents) => ShapeSend(s, dest, contents);
    case Receive(from, pointer) => ShapeReceive(s, from, pointer);
    case _ =>
  }

  lemma ShapeSwitch(s: State)
    requires Shape(s)
    ensures Shape(Switch(s))
  {
  }
}
