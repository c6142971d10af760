/** Runs of the task machine: boot, messages, sleeping and time slices. */
module TaskRuns {
  import opened TaskModel
  import opened TaskInv

  function Run(s: State, es: seq<Event>): State
    requires Shape(s) && Runnable(s, es)
    decreases |es|
  {
    if es == [] then s else Run(Step(s, es[0]), es[1..])
  }

  ghost predicate Runnable(s: State, es: seq<Event>)
    requires Shape(s)
    decreases |es|
  {
    es == [] || (Enabled(s, es[0]) && Shape(Step(s, es[0])) && Runnable(Step(s, es[0]), es[1..]))
  }

  /** Every run from a settled state stays settled. */
  lemma {:induction false} RunKeeps(s: State, es: seq<Event>)
    requires Settled(s) && Runnable(s, es)
    ensures Settled(Run(s, es))
    decreases |es|
  {
    if es != [] {
      StepKeeps(s, es[0]);
      RunKeeps(Step(s, es[0]), es[1..]);
    }
  }

  /** The events of a sequence that can happen, each in the state the ones before it lead to. */
  function Happening(s: State, es: seq<Event>): seq<Event>
    requires Shape(s)
    decreases |es|
  {
    if es == [] then []
    else if Enabled(s, es[0]) then StepShape(s, es[0]); [es[0]] + Happening(Step(s, es[0]), es[1..])
    else Happening(s, es[1..])
  }

  /** One event more. */
  lemma {:induction false} RunOneMore(s: State, es: seq<Event>, e: Event)
    requires Shape(s) && Runnable(s, es) && Shape(Run(s, es)) && Enabled(Run(s, es), e)
    ensures Shape(Step(Run(s, es), e)) && Runnable(s, es + [e]) && Run(s, es + [e]) == Step(Run(s, es), e)
    decreases |es|
  {
    hide *;
    StepShape(Run(s, es), e);
    if es == [] {
      RunEnds(s, es);
      assert [] + [e] == [e];
      RunsBegin(s, [e]);
      RunEnds(Step(s, e), [e][1..]);
    } else {
      RunFirst(s, es);
      RunOneMore(Step(s, es[0]), es[1..], e);
      assert (es + [e])[1..] == es[1..] + [e];
      RunsBegin(s, es + [e]);
    }
  }

  lemma RunsBegin(s: State, es: seq<Event>)
    requires Shape(s) && es != [] && Enabled(s, es[0]) && Shape(Step(s, es[0])) && Runnable(Step(s, es[0]), es[1..])
    ensures Runnable(s, es) && Run(s, es) == Run(Step(s, es[0]), es[1..])
  {
  }

  // ----- every message is handed over exactly once

  /** What a sent to b, in order. */
  function Between(log: seq<Letter>, a: nat, b: nat): seq<Message> {
    if log == [] then []
    else
      var last := log[|log| - 1];
      Between(log[..|log| - 1], a, b) + if last.from == a && last.to == b then [last.contents] else []
  }

  lemma BetweenAppend(log: seq<Letter>, l: Letter, a: nat, b: nat)
    ensures Between(log + [l], a, b) == Between(log, a, b) + if l.from == a && l.to == b then [l.contents] else []
  {
    assert (log + [l])[..|log|] == log;
  }

  /** What a has sent to b and b has not got yet: at most one message waits in b's buffer to be delivered, and
      at most one in a's buffer to be fetched. */
  function InFlight(s: State, a: nat, b: nat): seq<Message>
    requires Shape(s) && a < TASKS && b < TASKS
  {
    (if s.tasks[b].delivering && s.tasks[b].origin == a then [s.tasks[b].buffer] else []) +
    (if s.tasks[a].sending && s.tasks[a].sendTo == b then [s.tasks[a].buffer] else [])
  }

  ghost predicate Accounted(s: State, a: nat, b: nat)
    requires Shape(s) && a < TASKS && b < TASKS
  {
    Between(s.sent, a, b) == Between(s.handed, a, b) + InFlight(s, a, b)
  }

  /** Between any two tasks, the messages sent are those handed over, in the same order, and then those in flight:
      none is lost, doubled, changed or overtaken. */
  ghost predicate Accounts(s: State)
    requires Shape(s)
  {
    forall a: nat, b: nat {:trigger Accounted(s, a, b)} :: a < TASKS && b < TASKS ==> Accounted(s, a, b)
  }

  /** Nothing that concerns messages has changed. */
  ghost predicate SameMail(s: State, s': State)
    requires Shape(s) && Shape(s')
  {
    && s'.sent == s.sent && s'.handed == s.handed
    && forall t: nat :: t < TASKS ==>
         && s'.tasks[t].buffer == s.tasks[t].buffer && s'.tasks[t].sending == s.tasks[t].sending
         && s'.tasks[t].delivering == s.tasks[t].delivering && s'.tasks[t].sendTo == s.tasks[t].sendTo
         && s'.tasks[t].origin == s.tasks[t].origin && s'.tasks[t].receiving == s.tasks[t].receiving
         && s'.tasks[t].recPid == s.tasks[t].recPid
  }

  lemma SameAccounts(s: State, s': State)
    requires Shape(s) && Shape(s') && Accounts(s) && SameMail(s, s')
    ensures Accounts(s')
  {
    forall a: nat, b: nat | a < TASKS && b < TASKS
      ensures Accounted(s', a, b)
    {
      assert Accounted(s, a, b);
    }
  }

  lemma SameEnqueue(s: State, t: nat)
    requires Shape(s) && t < TASKS
    ensures Shape(Enqueue(s, t)) && SameMail(s, Enqueue(s, t))
  {
    ShapeEnqueue(s, t);
  }

  lemma SameDequeue(s: State, t: nat)
    requires Shape(s) && t < TASKS
    ensures Shape(Dequeue(s, t)) && SameMail(s, Dequeue(s, t))
  {
    ShapeDequeue(s, t);
  }

  lemma {:induction false} SameWake(s: State)
    requires Shape(s)
    ensures Shape(Wake(s)) && SameMail(s, Wake(s))
    decreases |s.timers|
  {
    if s.timers != [] && s.tasks[s.timers[0]].expire <= s.clock {
      var s1 := s.(timers := s.timers[1..]);
      SameEnqueue(s1, s.timers[0]);
      SameWake(Enqueue(s1, s.timers[0]));
    }
  }

  lemma SameTick(s: State)
    requires Shape(s)
    ensures Shape(TimerTick(s)) && SameMail(s, TimerTick(s))
  {
    ShapeHandle(s, Tick);
    var s1 := s.(clock := (s.clock + 1) % WORD);
    ShapeTick(s1);
    SameTickTask(s1);
    SameWake(TickTask(s1));
  }

  lemma SameTickTask(s: State)
    requires Shape(s)
    ensures Shape(TickTask(s)) && SameMail(s, TickTask(s))
  {
    ShapeTick(s);
    var t := s.tasks[s.current];
    if t.preemptible && OneLess(t.ticksLeft) == 0 {
      SameDequeue(SetTicks(s, t.quantum), s.current);
      SameEnqueue(Dequeue(SetTicks(s, t.quantum), s.current), s.current);
    }
  }

  lemma SameSleep(s: State, ms: int)
    requires Shape(s)
    ensures Shape(SleepTask(s, ms)) && SameMail(s, SleepTask(s, ms))
  {
    ShapeSleep(s, ms);
    if ms > 0 {
      ShapeTimer(s, Expiry(s.clock, ms));
      SameDequeue(SetTimer(s, Expiry(s.clock, ms)), s.current);
    }
  }

  lemma SamePreempt(s: State)
    requires Shape(s)
    ensures Shape(Dequeue(s, s.current)) && Shape(PreemptTask(s, s.current)) && SameMail(s, PreemptTask(s, s.current))
  {
    SameDequeue(s, s.current);
    SameEnqueue(Dequeue(s, s.current), s.current);
  }

  lemma SameResult(s: State, r: int)
    requires Shape(s)
    ensures Shape(SetResult(s, r)) && SameMail(s, SetResult(s, r))
  {
    ShapeResult(s, r);
  }

  lemma MailTrans(s: State, s': State, s'': State)
    requires Shape(s) && Shape(s') && Shape(s'') && SameMail(s, s') && SameMail(s', s'')
    ensures SameMail(s, s'')
  {
  }

  /** A message goes straight to a waiting receiver. */
  lemma HandOverAccounts(s: State, d: nat, contents: Message)
    requires InvBut(s, TASKS) && Accounts(s) && d < TASKS && s.tasks[d].receiving
    requires !s.tasks[s.current].sending
    ensures Shape(HandOver(s, d, contents)) && Accounts(HandOver(s, d, contents))
  {
    ShapeTransfers(s, d, contents);
    var s' := HandOver(s, d, contents);
    assert Placed(s, d);
    hide InvBut, Shape;
    forall a: nat, b: nat | a < TASKS && b < TASKS
      ensures Accounted(s', a, b)
    {
      assert Accounted(s, a, b);
      BetweenAppend(s.sent, Letter(s.current, d, contents), a, b);
    }
  }

  /** A message waits with its sender. */
  lemma QueueUpAccounts(s: State, d: nat, contents: Message)
    requires Shape(s) && Accounts(s) && d < TASKS && !s.tasks[s.current].sending && !s.tasks[s.current].delivering
    ensures Shape(QueueUp(s, d, contents)) && Accounts(QueueUp(s, d, contents))
  {
    ShapeTransfers(s, d, contents);
    var s' := QueueUp(s, d, contents);
    hide Shape;
    forall a: nat, b: nat | a < TASKS && b < TASKS
      ensures Accounted(s', a, b)
    {
      assert Accounted(s, a, b);
      BetweenAppend(s.sent, Letter(s.current, d, contents), a, b);
    }
  }

  /** A waiting message is fetched. */
  lemma TakeAccounts(s: State, k: nat)
    requires InvBut(s, TASKS) && Accounts(s) && k < |s.senders[s.current]| && !s.tasks[s.current].delivering
    ensures Shape(Take(s, k)) && Accounts(Take(s, k))
  {
    ShapeAnswers(s, k, 0, 0);
    var c := s.current;
    var x := s.senders[c][k];
    var s' := Take(s, k);
    assert s.tasks[x].sending && s.tasks[x].sendTo == c && Placed(s, x);
    hide InvBut, Shape;
    forall a: nat, b: nat | a < TASKS && b < TASKS
      ensures Accounted(s', a, b)
    {
      assert Accounted(s, a, b);
      BetweenAppend(s.handed, Letter(x, c, s.tasks[x].buffer), a, b);
    }
  }

  /** Waiting moves no message. */
  lemma AwaitAccounts(s: State, from: int, pointer: nat)
    requires Shape(s) && Accounts(s)
    ensures Shape(Await(s, from, pointer)) && Accounts(Await(s, from, pointer))
  {
    ShapeAnswers(s, 0, from, pointer);
    hide Shape;
    forall a: nat, b: nat | a < TASKS && b < TASKS
      ensures Accounted(Await(s, from, pointer), a, b)
    {
      assert Accounted(s, a, b);
    }
  }

  /** A message that was handed over reaches its place. */
  lemma DeliverAccounts(s: State)
    requires InvBut(s, TASKS) && Accounts(s)
    ensures Shape(Deliver(s)) && Accounts(Deliver(s))
  {
    DeliverKeeps(s);
    var c := s.current;
    var t := s.tasks[c];
    var s' := Deliver(s);
    assert Placed(s, c);
    assert t.delivering ==> 0 <= t.origin < TASKS;
    hide InvBut, Shape;
    forall a: nat, b: nat | a < TASKS && b < TASKS
      ensures Accounted(s', a, b)
    {
      assert Accounted(s, a, b);
      if t.delivering {
        BetweenAppend(s.handed, Letter(t.origin, c, t.buffer), a, b);
      }
    }
  }

  lemma SendAccounts(s: State, dest: int, contents: Message)
    requires Settled(s) && s.current != IDLE && Accounts(s)
    ensures Shape(SendMessage(s, dest, contents)) && Accounts(SendMessage(s, dest, contents))
  {
    ShapeSend(s, dest, contents);
    ChosenReady(s);
    assert Placed(s, s.current);
    var d := FindTask(s.tasks, dest);
    hide Settled, InvBut, Inv, Accounts, SameMail, Shape, Placed;
    RunsClean(s);
    if d == TASKS {
      SameResult(s, -1);
      SameAccounts(s, SetResult(s, -1));
    } else if Accepts(s.tasks[d], s.tasks[s.current].pid) {
      HandOverAccounts(s, d, contents);
      SameEnqueue(HandOver(s, d, contents), d);
      SameResult(Enqueue(HandOver(s, d, contents), d), 0);
      MailTrans(HandOver(s, d, contents), Enqueue(HandOver(s, d, contents), d), SendMessage(s, dest, contents));
      SameAccounts(HandOver(s, d, contents), SendMessage(s, dest, contents));
    } else {
      QueueUpAccounts(s, d, contents);
      SameDequeue(QueueUp(s, d, contents), s.current);
      SameResult(Dequeue(QueueUp(s, d, contents), s.current), 0);
      MailTrans(QueueUp(s, d, contents), Dequeue(QueueUp(s, d, contents), s.current), SendMessage(s, dest, contents));
      SameAccounts(QueueUp(s, d, contents), SendMessage(s, dest, contents));
    }
  }

  /** The running task has no message of its own under way. */
  lemma RunsClean(s: State)
    requires Settled(s) && s.current != IDLE
    ensures InvBut(s, TASKS) && Shape(s) && !s.tasks[s.current].sending && !s.tasks[s.current].delivering
    ensures !s.tasks[s.current].receiving && Ready(s, s.current)
  {
    ChosenReady(s);
    assert Placed(s, s.current);
  }

  lemma ReceiveAccounts(s: State, from: int, pointer: nat)
    requires Settled(s) && s.current != IDLE && Accounts(s)
    ensures Shape(ReceiveMessage(s, from, pointer)) && Accounts(ReceiveMessage(s, from, pointer))
  {
    ShapeReceive(s, from, pointer);
    RunsClean(s);
    var c := s.current;
    var k := FirstMatch(s.senders[c], s.tasks, from);
    if from == NO_TASK {
      SameResult(s, -1);
      SameAccounts(s, SetResult(s, -1));
    } else if k < |s.senders[c]| {
      var x := s.senders[c][k];
      TakeAccounts(s, k);
      SameEnqueue(Take(s, k), x);
      SameResult(Enqueue(Take(s, k), x), 0);
      MailTrans(Take(s, k), Enqueue(Take(s, k), x), ReceiveMessage(s, from, pointer));
      SameAccounts(Take(s, k), ReceiveMessage(s, from, pointer));
    } else {
      ShapeAnswers(s, k, from, pointer);
      SameDequeue(Await(s, from, pointer), c);
      SameResult(Dequeue(Await(s, from, pointer), c), 0);
      MailTrans(Await(s, from, pointer), Dequeue(Await(s, from, pointer), c), ReceiveMessage(s, from, pointer));
      AwaitAccounts(s, from, pointer);
      SameAccounts(Await(s, from, pointer), ReceiveMessage(s, from, pointer));
    }
    hide Settled, InvBut, Inv, Accounts, Shape, Placed;
  }

  lemma HandleAccounts(s: State, e: Event)
    requires Settled(s) && Enabled(s, e) && Accounts(s)
    ensures Shape(Handle(s, e)) && Accounts(Handle(s, e))
  {
    hide InvBut, Accounts, SameMail, TimerTick, SleepTask, PreemptTask, SendMessage, ReceiveMessage, SetResult, Shape;
    SettledMeans(s);
    ShapeHandle(s, e);
    match e
    case Tick =>
      SameTick(s);
      SameAccounts(s, TimerTick(s));
    case Sleep(ms) =>
      SameSleep(s, ms);
      SameResult(SleepTask(s, ms), 0);
      MailTrans(s, SleepTask(s, ms), Handle(s, e));
      SameAccounts(s, Handle(s, e));
    case Preempt =>
      SamePreempt(s);
      SameResult(PreemptTask(s, s.current), 0);
      MailTrans(s, PreemptTask(s, s.current), Handle(s, e));
      SameAccounts(s, Handle(s, e));
    case GetPid =>
      SameResult(s, s.tasks[s.current].pid);
      SameAccounts(s, Handle(s, e));
    case Send(dest, contents) => SendAccounts(s, dest, contents);
    case Receive(from, pointer) => ReceiveAccounts(s, from, pointer);
    case Other =>
      SameResult(s, 0);
      SameAccounts(s, Handle(s, e));
  }

  lemma ResumeAccounts(s: State)
    requires InvBut(s, TASKS) && Cached(s) && Shape(s) && Accounts(s)
    ensures Shape(Resume(s)) && Accounts(Resume(s))
  {
    hide InvBut, Accounts, Shape, Deliver, Switch;
    SwitchKeeps(s);
    ShapeSwitch(s);
    SwitchMail(s);
    SameAccounts(s, Switch(s));
    DeliverAccounts(Switch(s));
  }

  lemma SwitchMail(s: State)
    requires Shape(s) && Shape(Switch(s))
    ensures SameMail(s, Switch(s))
  {
  }

  lemma StepAccounts(s: State, e: Event)
    requires Settled(s) && Enabled(s, e) && Accounts(s)
    ensures Shape(Step(s, e)) && Accounts(Step(s, e))
  {
    hide InvBut, Accounts, Shape, Handle, Resume, Settled;
    SettledSorted(s);
    HandleKeeps(s, e);
    HandleAccounts(s, e);
    ResumeAccounts(Handle(s, e));
  }

  /** The rendezvous law: over every run, what was sent and what was handed over agree. */
  lemma {:induction false} RunAccounts(s: State, es: seq<Event>)
    requires Settled(s) && Accounts(s) && Runnable(s, es)
    ensures Shape(Run(s, es)) && Accounts(Run(s, es))
    decreases |es|
  {
    if es != [] {
      StepKeeps(s, es[0]);
      StepAccounts(s, es[0]);
      RunAccounts(Step(s, es[0]), es[1..]);
    }
  }

  // ----- every message handed over was asked for

  /** What a call of receive asks for: a process id or all; nothing if it is refused. */
  function AskOf(s: State, e: Event, b: nat): seq<int> {
    if e.Receive? && s.current == b && e.from != NO_TASK then [e.from] else []
  }

  /** What task b asks for in a run, in order. */
  function Asks(s: State, es: seq<Event>, b: nat): seq<int>
    requires Shape(s) && Runnable(s, es)
    decreases |es|
  {
    if es == [] then [] else AskOf(s, es[0], b) + Asks(Step(s, es[0]), es[1..], b)
  }

  /** The senders of the messages handed to b, in order. */
  function HandedTo(log: seq<Letter>, b: nat): seq<nat> {
    if log == [] then []
    else
      var last := log[|log| - 1];
      HandedTo(log[..|log| - 1], b) + if last.to == b then [last.from] else []
  }

  /** What b still waits for: a message, or the delivery of one that is there. */
  function Pending(s: State, b: nat): seq<int>
    requires Shape(s) && b < TASKS
  {
    if s.tasks[b].receiving || s.tasks[b].delivering then [s.tasks[b].recPid] else []
  }

  predicate Wanted(ask: int, from: nat) {
    ask == ALL_TASKS || ask == from
  }

  /** The messages handed to b are the answers to what it asked for, one for each, in order, each from a sender that
      was asked for; what is not answered yet is what b waits for. */
  ghost predicate Answered(s: State, b: nat, asks: seq<int>)
    requires Shape(s) && b < TASKS
  {
    var senders := HandedTo(s.handed, b);
    && |senders| <= |asks| && asks[|senders|..] == Pending(s, b)
    && (forall i :: 0 <= i < |senders| ==> Wanted(asks[i], senders[i]))
    && (s.tasks[b].delivering ==> s.tasks[b].origin >= 0 && Wanted(s.tasks[b].recPid, s.tasks[b].origin))
  }

  lemma HandedAppend(log: seq<Letter>, l: Letter, b: nat)
    ensures HandedTo(log + [l], b) == HandedTo(log, b) + if l.to == b then [l.from] else []
  {
    assert (log + [l])[..|log|] == log;
  }

  lemma SameAnswered(s: State, s': State, b: nat, asks: seq<int>)
    requires Shape(s) && Shape(s') && b < TASKS && Answered(s, b, asks) && SameMail(s, s')
    ensures Answered(s', b, asks)
  {
  }

  lemma HandOverAnswered(s: State, d: nat, contents: Message, b: nat, asks: seq<int>)
    requires InvBut(s, TASKS) && b < TASKS && Answered(s, b, asks) && d < TASKS
    requires Accepts(s.tasks[d], s.tasks[s.current].pid) && s.tasks[s.current].pid == s.current
    ensures Shape(HandOver(s, d, contents)) && Answered(HandOver(s, d, contents), b, asks)
  {
    ShapeTransfers(s, d, contents);
    hide InvBut, Shape;
  }

  lemma QueueUpAnswered(s: State, d: nat, contents: Message, b: nat, asks: seq<int>)
    requires Shape(s) && b < TASKS && Answered(s, b, asks) && d < TASKS
    ensures Shape(QueueUp(s, d, contents)) && Answered(QueueUp(s, d, contents), b, asks)
  {
    ShapeTransfers(s, d, contents);
    hide Shape;
  }

  /** A message that waits is fetched. */
  lemma TakeAnswered(s: State, k: nat, from: int, b: nat, asks: seq<int>)
    requires Shape(s) && b < TASKS && Answered(s, b, asks) && k < |s.senders[s.current]|
    requires s.current == b ==> Pending(s, b) == []
    requires from == ALL_TASKS || from == s.senders[s.current][k]
    ensures Shape(Take(s, k)) && Answered(Take(s, k), b, asks + if s.current == b then [from] else [])
  {
    ShapeAnswers(s, k, 0, 0);
    var c := s.current;
    var x := s.senders[c][k];
    HandedAppend(s.handed, Letter(x, c, s.tasks[x].buffer), b);
    hide Shape;
  }

  /** The task waits. */
  lemma AwaitAnswered(s: State, from: int, pointer: nat, b: nat, asks: seq<int>)
    requires Shape(s) && b < TASKS && Answered(s, b, asks)
    requires s.current == b ==> Pending(s, b) == [] && !s.tasks[b].delivering
    ensures Shape(Await(s, from, pointer))
    ensures Answered(Await(s, from, pointer), b, asks + if s.current == b then [from] else [])
  {
    ShapeAnswers(s, 0, from, pointer);
    hide Shape;
  }

  /** A message that was handed over reaches its place. */
  lemma DeliverAnswered(s: State, b: nat, asks: seq<int>)
    requires InvBut(s, TASKS) && b < TASKS && Answered(s, b, asks)
    ensures Shape(Deliver(s)) && Answered(Deliver(s), b, asks)
  {
    DeliverKeeps(s);
    var c := s.current;
    var t := s.tasks[c];
    assert Placed(s, c);
    hide InvBut, Shape;
    if t.afterSwitch && t.delivering {
      if c == b {
        HandedAppend(s.handed, Letter(t.origin, c, t.buffer), b);
      } else if t.origin >= 0 {
        HandedAppend(s.handed, Letter(t.origin, c, t.buffer), b);
      }
    }
  }

  lemma SendAnswered(s: State, dest: int, contents: Message, b: nat, asks: seq<int>)
    requires Settled(s) && s.current != IDLE && Shape(s) && b < TASKS && Answered(s, b, asks)
    ensures Shape(SendMessage(s, dest, contents)) && Answered(SendMessage(s, dest, contents), b, asks)
  {
    hide *;
    SendIs(s, dest, contents);
    RunsClean(s);
    RunsPid(s);
    var d := FindTask(s.tasks, dest);
    if d == TASKS {
      SameResult(s, -1);
      SameAnswered(s, SetResult(s, -1), b, asks);
    } else if Accepts(s.tasks[d], s.tasks[s.current].pid) {
      HandOverAnswered(s, d, contents, b, asks);
      SameEnqueue(HandOver(s, d, contents), d);
      SameResult(Enqueue(HandOver(s, d, contents), d), 0);
      MailTrans(HandOver(s, d, contents), Enqueue(HandOver(s, d, contents), d), SendMessage(s, dest, contents));
      SameAnswered(HandOver(s, d, contents), SendMessage(s, dest, contents), b, asks);
    } else {
      QueueUpAnswered(s, d, contents, b, asks);
      SameDequeue(QueueUp(s, d, contents), s.current);
      SameResult(Dequeue(QueueUp(s, d, contents), s.current), 0);
      MailTrans(QueueUp(s, d, contents), Dequeue(QueueUp(s, d, contents), s.current), SendMessage(s, dest, contents));
      SameAnswered(QueueUp(s, d, contents), SendMessage(s, dest, contents), b, asks);
    }
  }

  lemma RunsPid(s: State)
    requires Settled(s) && s.current != IDLE
    ensures s.current < |s.tasks| && s.tasks[s.current].pid == s.current
  {
    ChosenReady(s);
  }

  /** The sender of the message that receive takes. */
  lemma TakenWanted(s: State, from: int)
    requires Settled(s) && s.current != IDLE
    ensures var k, c := FirstMatch(s.senders[s.current], s.tasks, from), s.current;
            && Shape(s) && k <= |s.senders[c]|
            && (k < |s.senders[c]| ==> s.senders[c][k] < TASKS && (from == ALL_TASKS || from == s.senders[c][k]))
            && c < TASKS && Pending(s, c) == [] && !s.tasks[c].delivering
  {
    RunsClean(s);
    var k, c := FirstMatch(s.senders[s.current], s.tasks, from), s.current;
    if k < |s.senders[c]| {
      var x := s.senders[c][k];
      assert s.tasks[x].sending && Placed(s, x);
    }
  }

  lemma ReceiveAnswered(s: State, from: int, pointer: nat, b: nat, asks: seq<int>)
    requires Settled(s) && s.current != IDLE && Shape(s) && b < TASKS && Answered(s, b, asks)
    ensures Shape(ReceiveMessage(s, from, pointer))
    ensures Answered(ReceiveMessage(s, from, pointer), b, asks + AskOf(s, Receive(from, pointer), b))
  {
    ShapeReceive(s, from, pointer);
    TakenWanted(s, from);
    hide Settled, Shape, Answered, SameMail, Enqueue, Dequeue, Take, Await, SetResult, Pending;
    var c := s.current;
    var k := FirstMatch(s.senders[c], s.tasks, from);
    if from == NO_TASK {
      SameResult(s, -1);
      SameAnswered(s, SetResult(s, -1), b, asks);
      assert asks + [] == asks;
    } else if k < |s.senders[c]| {
      TakeAnswered(s, k, from, b, asks);
      EnqueueAnswered(Take(s, k), s.senders[c][k], b, asks + AskOf(s, Receive(from, pointer), b));
    } else {
      AwaitAnswered(s, from, pointer, b, asks);
      DequeueAnswered(Await(s, from, pointer), b, asks + AskOf(s, Receive(from, pointer), b));
    }
  }

  lemma EnqueueAnswered(s: State, t: nat, b: nat, asks: seq<int>)
    requires Shape(s) && t < TASKS && b < TASKS && Answered(s, b, asks)
    ensures Shape(Enqueue(s, t)) && Shape(SetResult(Enqueue(s, t), 0)) && Answered(SetResult(Enqueue(s, t), 0), b, asks)
  {
    hide *;
    ShapeEnqueue(s, t);
    ShapeResult(Enqueue(s, t), 0);
    SameEnqueue(s, t);
    SameResult(Enqueue(s, t), 0);
    MailTrans(s, Enqueue(s, t), SetResult(Enqueue(s, t), 0));
    SameAnswered(s, SetResult(Enqueue(s, t), 0), b, asks);
  }

  lemma DequeueAnswered(s: State, b: nat, asks: seq<int>)
    requires Shape(s) && b < TASKS && Answered(s, b, asks)
    ensures Shape(Dequeue(s, s.current)) && Shape(SetResult(Dequeue(s, s.current), 0))
    ensures Answered(SetResult(Dequeue(s, s.current), 0), b, asks)
  {
    hide *;
    ShapeCaller(s);
    ShapeDequeue(s, s.current);
    ShapeResult(Dequeue(s, s.current), 0);
    SameDequeue(s, s.current);
    SameResult(Dequeue(s, s.current), 0);
    MailTrans(s, Dequeue(s, s.current), SetResult(Dequeue(s, s.current), 0));
    SameAnswered(s, SetResult(Dequeue(s, s.current), 0), b, asks);
  }

  lemma ShapeCaller(s: State)
    requires Shape(s)
    ensures s.current < TASKS
  {
  }

  lemma HandleAnswered(s: State, e: Event, b: nat, asks: seq<int>)
    requires Settled(s) && Enabled(s, e) && Shape(s) && b < TASKS && Answered(s, b, asks)
    ensures Shape(Handle(s, e)) && Answered(Handle(s, e), b, asks + AskOf(s, e, b))
  {
    hide Settled, Answered, SameMail, TimerTick, SleepTask, PreemptTask, SendMessage, ReceiveMessage, SetResult, Shape;
    ShapeHandle(s, e);
    assert asks + [] == asks;
    match e
    case Tick =>
      SameTick(s);
      SameAnswered(s, TimerTick(s), b, asks);
    case Sleep(ms) =>
      SameSleep(s, ms);
      SameResult(SleepTask(s, ms), 0);
      MailTrans(s, SleepTask(s, ms), Handle(s, e));
      SameAnswered(s, Handle(s, e), b, asks);
    case Preempt =>
      SamePreempt(s);
      SameResult(PreemptTask(s, s.current), 0);
      MailTrans(s, PreemptTask(s, s.current), Handle(s, e));
      SameAnswered(s, Handle(s, e), b, asks);
    case GetPid =>
      ShapeIs(s);
      SameResult(s, s.tasks[s.current].pid);
      SameAnswered(s, Handle(s, e), b, asks);
    case Send(dest, contents) => SendAnswered(s, dest, contents, b, asks);
    case Receive(from, pointer) => ReceiveAnswered(s, from, pointer, b, asks);
    case Other =>
      SameResult(s, 0);
      SameAnswered(s, Handle(s, e), b, asks);
  }

  lemma StepAnswered(s: State, e: Event, b: nat, asks: seq<int>)
    requires Settled(s) && Enabled(s, e) && Shape(s) && b < TASKS && Answered(s, b, asks)
    ensures Shape(Step(s, e)) && Answered(Step(s, e), b, asks + AskOf(s, e, b))
  {
    hide *;
    SettledMeans(s);
    HandleKeeps(s, e);
    StepShape(s, e);
    StepIs(s, e);
    HandleAnswered(s, e, b, asks);
    ResumeAnswered(Handle(s, e), b, asks + AskOf(s, e, b));
  }

  lemma ResumeAnswered(s: State, b: nat, asks: seq<int>)
    requires InvBut(s, TASKS) && Cached(s) && Shape(s) && b < TASKS && Answered(s, b, asks)
    ensures Shape(Resume(s)) && Answered(Resume(s), b, asks)
  {
    hide InvBut, Answered, Shape, Deliver, Switch;
    SwitchKeeps(s);
    ShapeSwitch(s);
    SwitchMail(s);
    SameAnswered(s, Switch(s), b, asks);
    DeliverAnswered(Switch(s), b, asks);
  }

  /** Over every run each task is handed exactly what it asks for: one message for each receive that was not refused, in
      order, and from the sender it named if it named one. */
  lemma {:induction false} RunAnswered(s: State, es: seq<Event>, b: nat, asks: seq<int>)
    requires Settled(s) && Shape(s) && Runnable(s, es) && b < TASKS && Answered(s, b, asks)
    ensures Shape(Run(s, es)) && Answered(Run(s, es), b, asks + Asks(s, es, b))
    decreases |es|
  {
    hide Settled, Shape, Answered, AskOf;
    if es == [] {
      assert asks + [] == asks;
    } else {
      StepKeeps(s, es[0]);
      StepAnswered(s, es[0], b, asks);
      var more := asks + AskOf(s, es[0], b);
      RunAnswered(Step(s, es[0]), es[1..], b, more);
      assert more + Asks(Step(s, es[0]), es[1..], b) == asks + Asks(s, es, b);
    }
  }

  /** A send returns 0 exactly when the message was accepted, and -1 otherwise. */
  lemma SendAnswer(s: State, dest: int, contents: Message)
    requires Settled(s) && s.current != IDLE
    ensures var s', d := SendMessage(s, dest, contents), FindTask(s.tasks, dest);
            && |s'.tasks| == TASKS && (s'.tasks[s.current].result == 0 || s'.tasks[s.current].result == -1)
            && (s'.tasks[s.current].result == 0 <==> exists t: nat :: t < TASKS && s.tasks[t].pid == dest && dest != NO_TASK)
            && (s'.tasks[s.current].result == 0 ==> s'.sent == s.sent + [Letter(s.current, d, contents)])
            && (s'.tasks[s.current].result == -1 ==> s'.sent == s.sent)
  {
    ShapeSend(s, dest, contents);
    RunsClean(s);
    assert forall t: nat :: t < TASKS ==> s.tasks[t].pid == t || s.tasks[t].pid == NO_TASK;
    hide InvBut, Settled;
  }

  // ----- sleeping

  /** The timers from the first one on that is not due. */
  function DropDue(timers: seq<nat>, tasks: seq<Task>, clock: nat): seq<nat>
    requires forall i :: 0 <= i < |timers| ==> timers[i] < |tasks|
  {
    if timers == [] || tasks[timers[0]].expire > clock then timers else DropDue(timers[1..], tasks, clock)
  }

  /** On a sorted list these are the ones that are not due. */
  lemma {:induction false} DropDueIs(timers: seq<nat>, tasks: seq<Task>, clock: nat)
    requires Sorted(timers, tasks)
    ensures forall t :: t in DropDue(timers, tasks, clock) <==> t in timers && t < |tasks| && tasks[t].expire > clock
  {
    if timers != [] && tasks[timers[0]].expire <= clock {
      assert timers == [timers[0]] + timers[1..];
      DropDueIs(timers[1..], tasks, clock);
    } else {
      forall t | t in timers
        ensures tasks[t].expire > clock
      {
        var i :| 0 <= i < |timers| && timers[i] == t;
      }
    }
  }

  lemma {:induction false} WakeDrops(s: State)
    requires Shape(s)
    ensures Wake(s).tasks == s.tasks && Wake(s).clock == s.clock
    ensures Wake(s).timers == DropDue(s.timers, s.tasks, s.clock)
    decreases |s.timers|
  {
    if s.timers != [] && s.tasks[s.timers[0]].expire <= s.clock {
      var s1 := s.(timers := s.timers[1..]);
      ShapeEnqueue(s1, s.timers[0]);
      WakeDrops(Enqueue(s1, s.timers[0]));
    }
  }

  /** Counters stay below their wrap. */
  predicate NoWrap(s: State, e: Event) {
    (e.Tick? ==> s.clock + 1 < WORD) && (e.Sleep? && e.ms > 0 ==> s.clock + e.ms < WORD)
  }

  ghost predicate SameExpiry(s: State, s': State) {
    |s'.tasks| == |s.tasks| && forall t: nat :: t < |s.tasks| ==> s'.tasks[t].expire == s.tasks[t].expire
  }

  ghost predicate SameTimers(s: State, s': State) {
    SameExpiry(s, s') && s'.timers == s.timers && s'.clock == s.clock
  }

  lemma ResumeTimers(s: State)
    requires Shape(s)
    ensures SameTimers(s, Resume(s))
  {
    ShapeSwitch(s);
  }

  lemma TickExpiries(s: State)
    requires Shape(s)
    ensures SameTimers(s, TickTask(s))
  {
    ShapeDequeue(SetTicks(s, s.tasks[s.current].quantum), s.current);
  }

  /** The tick counter after a tick. */
  function Later(clock: nat): nat {
    (clock + 1) % WORD
  }

  lemma LaterIs(clock: nat)
    ensures clock + 1 < WORD ==> Later(clock) == clock + 1
    ensures clock + 1 == WORD ==> Later(clock) == 0
    ensures Later(clock) < WORD
  {
  }

  lemma HandleTickTimers(s: State)
    requires Shape(s) && Sorted(s.timers, s.tasks)
    ensures SameExpiry(s, TimerTick(s)) && TimerTick(s).clock == Later(s.clock)
    ensures forall t :: t in TimerTick(s).timers <==> t in s.timers && t < |s.tasks| && s.tasks[t].expire > Later(s.clock)
  {
    var s1 := s.(clock := Later(s.clock));
    assert Shape(s1);
    ShapeTick(s1);
    TickExpiries(s1);
    hide Shape, Wake, TickTask, DropDue, Sorted, Later;
    SortedBy(s.timers, s.tasks, TickTask(s1).tasks);
    WakeDrops(TickTask(s1));
    DropDueIs(s.timers, TickTask(s1).tasks, Later(s.clock));
  }

  lemma SortedBy(timers: seq<nat>, tasks: seq<Task>, tasks': seq<Task>)
    requires Sorted(timers, tasks) && |tasks'| == |tasks|
    requires forall t: nat :: t < |tasks| ==> tasks'[t].expire == tasks[t].expire
    ensures Sorted(timers, tasks')
  {
  }

  lemma SettledSorted(s: State)
    requires Settled(s)
    ensures Shape(s) && InvBut(s, TASKS) && Sorted(s.timers, s.tasks) && |s.tasks| == TASKS
  {
  }

  /** A tick takes exactly the tasks off the timer list whose time has come. */
  lemma TickTimers(s: State)
    requires Settled(s)
    ensures Shape(Step(s, Tick)) && Step(s, Tick).clock == Later(s.clock) && SameExpiry(s, Step(s, Tick))
    ensures forall t :: t in Step(s, Tick).timers <==> t in s.timers && t < |s.tasks| && s.tasks[t].expire > Later(s.clock)
  {
    hide Settled, InvBut, Shape, Resume, TimerTick, Sorted, Later;
    SettledSorted(s);
    StepShape(s, Tick);
    HandleTickTimers(s);
    ResumeTimers(Handle(s, Tick));
  }

  lemma StepShape(s: State, e: Event)
    requires Shape(s)
    ensures Shape(Handle(s, e)) && Shape(Step(s, e))
  {
    ShapeHandle(s, e);
    ShapeSwitch(Handle(s, e));
    assert Shape(Deliver(Switch(Handle(s, e))));
  }

  /** What a kernel call does to the timer list: at most, the caller joins it. */
  ghost predicate JoinsTimers(s: State, s': State, c: nat, expire: nat) {
    && |s'.tasks| == |s.tasks| && s'.clock == s.clock && c < |s.tasks|
    && (forall t: nat :: t < |s.tasks| && t != c ==> s'.tasks[t].expire == s.tasks[t].expire)
    && s'.tasks[c].expire == expire
    && (forall t :: t in s'.timers <==> t == c || t in s.timers)
  }

  lemma SleepJoins(s: State, ms: int)
    requires Settled(s) && s.current != IDLE && 0 < ms <= MAX_MS
    ensures Shape(SleepTask(s, ms)) && JoinsTimers(s, SleepTask(s, ms), s.current, (s.clock + ms) % WORD)
  {
    RunsClean(s);
    ShapeTimer(s, Expiry(s.clock, ms));
    assert Placed(s, s.current);
    SleeperTimers(s, Expiry(s.clock, ms));
    ShapeDequeue(SetTimer(s, Expiry(s.clock, ms)), s.current);
    assert (1000 * ms + 999) / 1000 == ms;
    hide Settled, InvBut, Shape;
  }

  lemma MoveTimers(s: State, t: nat, r: int)
    requires Shape(s) && t < TASKS
    ensures Shape(Enqueue(s, t)) && SameTimers(s, SetResult(Enqueue(s, t), r)) && SameTimers(s, Enqueue(s, t))
    ensures Shape(Dequeue(s, t)) && SameTimers(s, SetResult(Dequeue(s, t), r)) && SameTimers(s, Dequeue(s, t))
    ensures SameTimers(s, SetResult(s, r))
  {
    ShapeEnqueue(s, t);
    ShapeDequeue(s, t);
  }

  lemma TimersTrans(s: State, s': State, s'': State)
    requires SameTimers(s, s') && SameTimers(s', s'')
    ensures SameTimers(s, s'')
  {
  }

  lemma MailTimers(s: State, d: nat, contents: Message, k: nat, from: int, pointer: nat)
    requires Shape(s) && d < TASKS
    ensures SameTimers(s, HandOver(s, d, contents)) && SameTimers(s, QueueUp(s, d, contents))
    ensures SameTimers(s, Await(s, from, pointer))
    ensures k < |s.senders[s.current]| ==> SameTimers(s, Take(s, k))
  {
  }

  lemma HandleTimers(s: State, e: Event)
    requires Shape(s) && !e.Tick? && (e.Sleep? ==> e.ms <= 0)
    ensures SameTimers(s, Handle(s, e))
  {
    hide Shape, SameTimers, Enqueue, Dequeue, HandOver, QueueUp, Take, Await, SetResult;
    ShapeHandle(s, e);
    ShapeIs(s);
    MoveTimers(s, s.current, 0);
    match e {
      case Sleep(_) =>
      case Preempt =>
        MoveTimers(Dequeue(s, s.current), s.current, 0);
        TimersTrans(s, Dequeue(s, s.current), Handle(s, e));
      case GetPid => MoveTimers(s, s.current, s.tasks[s.current].pid);
      case Other =>
      case Send(dest, contents) =>
        var d := FindTask(s.tasks, dest);
        MoveTimers(s, s.current, -1);
        if d < TASKS {
          MailTimers(s, d, contents, 0, 0, 0);
          ShapeTransfers(s, d, contents);
          MoveTimers(HandOver(s, d, contents), d, 0);
          TimersTrans(s, HandOver(s, d, contents), SetResult(Enqueue(HandOver(s, d, contents), d), 0));
          MoveTimers(QueueUp(s, d, contents), s.current, 0);
          TimersTrans(s, QueueUp(s, d, contents), SetResult(Dequeue(QueueUp(s, d, contents), s.current), 0));
        }
      case Receive(from, pointer) =>
        MoveTimers(s, s.current, -1);
        var k := FirstMatch(s.senders[s.current], s.tasks, from);
        ShapeAnswers(s, k, from, pointer);
        MailTimers(s, s.current, Zeros(), k, from, pointer);
        if k < |s.senders[s.current]| {
          MoveTimers(Take(s, k), s.senders[s.current][k], 0);
          TimersTrans(s, Take(s, k), SetResult(Enqueue(Take(s, k), s.senders[s.current][k]), 0));
        } else {
          MoveTimers(Await(s, from, pointer), s.current, 0);
          TimersTrans(s, Await(s, from, pointer), SetResult(Dequeue(Await(s, from, pointer), s.current), 0));
        }
    }
  }

  lemma ShapeIs(s: State)
    requires Shape(s)
    ensures |s.tasks| == TASKS && |s.senders| == TASKS && s.current < TASKS
    ensures forall i :: 0 <= i < |s.senders[s.current]| ==> s.senders[s.current][i] < TASKS
  {
  }

  /** Kernel calls leave sleeping tasks alone; sleep adds the caller to the list. */
  lemma CallTimers(s: State, e: Event)
    requires Settled(s) && Enabled(s, e) && !e.Tick?
    ensures Shape(Step(s, e))
    ensures if e.Sleep? && e.ms > 0 then JoinsTimers(s, Step(s, e), s.current, (s.clock + e.ms) % WORD)
            else SameTimers(s, Step(s, e))
    ensures s.current !in s.timers
  {
    hide *;
    SettledSorted(s);
    EnabledCall(s, e);
    RunsAwake(s);
    StepShape(s, e);
    StepIs(s, e);
    ResumeTimers(Handle(s, e));
    if e.Sleep? && e.ms > 0 {
      SleepJoins(s, e.ms);
      ResultTimers(SleepTask(s, e.ms), 0);
      TimersTrans(SleepTask(s, e.ms), Handle(s, e), Step(s, e));
      JoinsThen(s, SleepTask(s, e.ms), Step(s, e), s.current, (s.clock + e.ms) % WORD);
    } else {
      HandleTimers(s, e);
      TimersTrans(s, Handle(s, e), Step(s, e));
    }
  }

  lemma EnabledCall(s: State, e: Event)
    requires Enabled(s, e) && !e.Tick?
    ensures s.current != IDLE && (e.Sleep? ==> e.ms <= MAX_MS) && WORD > 0
    ensures e.Sleep? && Shape(s) ==> Handle(s, e) == SetResult(SleepTask(s, e.ms), 0)
  {
  }

  lemma RunsAwake(s: State)
    requires Settled(s) && s.current != IDLE
    ensures s.current !in s.timers
  {
    RunsClean(s);
    assert Placed(s, s.current);
    hide InvBut, Settled;
  }

  lemma ResultTimers(s: State, r: int)
    requires Shape(s)
    ensures |s.tasks| == TASKS && s.current < TASKS && SameTimers(s, SetResult(s, r))
  {
  }

  lemma JoinsThen(s: State, s1: State, s': State, c: nat, expire: nat)
    requires JoinsTimers(s, s1, c, expire) && SameTimers(s1, s')
    ensures JoinsTimers(s, s', c, expire)
  {
  }

  function Ticks(es: seq<Event>): nat {
    if es == [] then 0 else (if es[0].Tick? then 1 else 0) + Ticks(es[1..])
  }

  /** No counter wraps during the run. */
  ghost predicate NoWraps(s: State, es: seq<Event>)
    requires Shape(s) && Runnable(s, es)
    decreases |es|
  {
    es == [] || (NoWrap(s, es[0]) && NoWraps(Step(s, es[0]), es[1..]))
  }

  /** A sleeping task stays asleep through a step unless its time has come. */
  lemma StepSleeps(s: State, e: Event, t: nat)
    requires Settled(s) && Enabled(s, e) && t in s.timers
    ensures t < TASKS && Shape(Step(s, e)) && Step(s, e).tasks[t].expire == s.tasks[t].expire
    ensures Step(s, e).clock == if e.Tick? then Later(s.clock) else s.clock
    ensures t in Step(s, e).timers <==> !(e.Tick? && s.tasks[t].expire <= Later(s.clock))
  {
    SettledSorted(s);
    if e.Tick? {
      TickTimers(s);
    } else {
      CallTimers(s, e);
    }
    hide Settled, InvBut, Shape, Later;
  }

  lemma SameTimersIs(s: State, s': State)
    requires SameTimers(s, s')
    ensures s'.timers == s.timers && s'.clock == s.clock && SameExpiry(s, s')
  {
  }

  lemma JoinsIs(s: State, s': State, c: nat, expire: nat)
    requires JoinsTimers(s, s', c, expire)
    ensures c < |s'.tasks| == |s.tasks| && s'.clock == s.clock && c in s'.timers && s'.tasks[c].expire == expire
    ensures forall t :: t in s'.timers ==> t == c || t in s.timers
    ensures forall t: nat :: t < |s.tasks| && t != c ==> s'.tasks[t].expire == s.tasks[t].expire
  {
  }

  lemma DueIs(s: State)
    requires Shape(s) && NothingDue(s)
    ensures forall t :: t in s.timers ==> t < |s.tasks| && s.tasks[t].expire > s.clock
  {
  }

  /** With no wrap, nothing on the timer list is ever due between two steps. */
  lemma StepDue(s: State, e: Event)
    requires Settled(s) && Shape(s) && NothingDue(s) && Enabled(s, e) && NoWrap(s, e)
    ensures Shape(Step(s, e)) && NothingDue(Step(s, e)) && Step(s, e).clock == s.clock + TickOf(e)
  {
    hide *;
    SettledSorted(s);
    StepShape(s, e);
    DueIs(s);
    NoWrapIs(s, e);
    TickOfIs(e);
    if e.Tick? {
      TickTimers(s);
      SameExpiryIs(s, Step(s, e));
    } else {
      CallTimers(s, e);
      if e.Sleep? && e.ms > 0 {
        JoinsIs(s, Step(s, e), s.current, (s.clock + e.ms) % WORD);
      } else {
        SameTimersIs(s, Step(s, e));
        SameExpiryIs(s, Step(s, e));
      }
    }
    DueBy(s, Step(s, e));
  }

  /** Over every run without a wrap. */
  lemma {:induction false} RunDue(s: State, es: seq<Event>)
    requires Settled(s) && Shape(s) && NothingDue(s) && Runnable(s, es) && NoWraps(s, es)
    ensures Shape(Run(s, es)) && NothingDue(Run(s, es)) && Run(s, es).clock == s.clock + Ticks(es)
    decreases |es|
  {
    if es != [] {
      StepKeeps(s, es[0]);
      StepDue(s, es[0]);
      RunDue(Step(s, es[0]), es[1..]);
    }
    hide Settled, Shape, NothingDue;
  }

  lemma TickOfIs(e: Event)
    ensures TickOf(e) == if e.Tick? then 1 else 0
  {
  }

  lemma NoWrapIs(s: State, e: Event)
    requires NoWrap(s, e)
    ensures e.Tick? ==> s.clock + 1 < WORD && Later(s.clock) == s.clock + 1
    ensures e.Sleep? && e.ms > 0 ==> s.clock + e.ms < WORD && (s.clock + e.ms) % WORD == s.clock + e.ms
  {
  }

  lemma SameExpiryIs(s: State, s': State)
    requires SameExpiry(s, s')
    ensures |s'.tasks| == |s.tasks| && forall t: nat :: t < |s.tasks| ==> s'.tasks[t].expire == s.tasks[t].expire
  {
  }

  lemma DueBy(s: State, s': State)
    requires Shape(s) && Shape(s')
    requires |s'.tasks| == |s.tasks| && forall t :: t in s'.timers ==> t < |s.tasks| && s'.tasks[t].expire > s'.clock
    ensures NothingDue(s')
  {
  }

  /** A sleeping task is off the ready queues. */
  lemma AsleepNotReady(s: State, t: nat)
    requires Settled(s) && t in s.timers
    ensures t < TASKS && !Ready(s, t) && t != s.current
  {
    assert Placed(s, t);
    ChosenReady(s);
  }

  /** A task that leaves the timer list without a new wait is ready. */
  lemma WokenReady(s: State, t: nat)
    requires Settled(s) && t in s.timers && t < TASKS && s.tasks[t].expire <= Later(s.clock)
    ensures Settled(Step(s, Tick)) && t !in Step(s, Tick).timers && Shape(Step(s, Tick)) && Ready(Step(s, Tick), t)
  {
    SettledSorted(s);
    StepKeeps(s, Tick);
    TickTimers(s);
    assert Placed(s, t);
    TickFlags(s, t);
    assert Placed(Step(s, Tick), t);
    hide InvBut, Shape, Later;
  }

  ghost predicate SameWaits(s: State, s': State) {
    |s'.tasks| == |s.tasks| && forall t: nat :: t < |s.tasks| ==>
      && s'.tasks[t].sending == s.tasks[t].sending && s'.tasks[t].receiving == s.tasks[t].receiving
      && s'.tasks[t].pid == s.tasks[t].pid
  }

  lemma ResumeWaits(s: State)
    requires Shape(s)
    ensures SameWaits(s, Resume(s))
  {
    ShapeSwitch(s);
  }

  lemma TickWaits(s: State)
    requires Shape(s)
    ensures Shape(TickTask(s)) && SameWaits(s, TickTask(s))
  {
    ShapeTick(s);
    ShapeDequeue(SetTicks(s, s.tasks[s.current].quantum), s.current);
  }

  lemma TickFlags(s: State, t: nat)
    requires Shape(s) && t < TASKS && Shape(Step(s, Tick))
    ensures var s' := Step(s, Tick);
            && |s'.tasks| == |s.tasks| && s'.tasks[t].sending == s.tasks[t].sending
            && s'.tasks[t].receiving == s.tasks[t].receiving && s'.tasks[t].pid == s.tasks[t].pid
  {
    StepShape(s, Tick);
    var s1 := s.(clock := (s.clock + 1) % WORD);
    assert Shape(s1);
    TickWaits(s1);
    ResumeWaits(Handle(s, Tick));
    hide Shape, Wake, TickTask, Resume;
    WakeDrops(TickTask(s1));
  }

  /** As long as fewer ticks pass than a task has left to sleep, it sleeps on, whoever else sleeps across a wrap. */
  lemma {:induction false} RunSleeps(s: State, es: seq<Event>, t: nat)
    requires Settled(s) && Runnable(s, es) && t in s.timers && t < TASKS
    requires s.clock + Ticks(es) < s.tasks[t].expire < WORD
    ensures Settled(Run(s, es)) && Shape(Run(s, es)) && t in Run(s, es).timers
    ensures Run(s, es).tasks[t].expire == s.tasks[t].expire && Run(s, es).clock == s.clock + Ticks(es)
    decreases |es|
  {
    if es != [] {
      StepKeeps(s, es[0]);
      StepSleeps(s, es[0], t);
      LaterIs(s.clock);
      RunSleeps(Step(s, es[0]), es[1..], t);
    }
    hide Settled, Shape, Later;
  }

  /** The same from the counter's last value on: it wraps once and then comes up to the expiry. */
  lemma {:induction false} RunSleepsOver(s: State, es: seq<Event>, t: nat)
    requires Settled(s) && Runnable(s, es) && t in s.timers && t < TASKS && s.clock == WORD - 1
    requires Ticks(es) <= s.tasks[t].expire < WORD - 1
    ensures Settled(Run(s, es)) && Shape(Run(s, es)) && t in Run(s, es).timers
    ensures Run(s, es).tasks[t].expire == s.tasks[t].expire
    ensures Later(Run(s, es).clock) == Ticks(es)
    decreases |es|
  {
    hide *;
    LaterIs(s.clock);
    SettledSorted(s);
    if es == [] {
      RunEnds(s, es);
    } else {
      RunFirst(s, es);
      TickOfIs(es[0]);
      StepKeeps(s, es[0]);
      StepSleeps(s, es[0], t);
      if es[0].Tick? {
        RunSleeps(Step(s, es[0]), es[1..], t);
        LaterIs(Ticks(es[1..]));
      } else {
        RunSleepsOver(Step(s, es[0]), es[1..], t);
      }
    }
  }

  lemma RunEnds(s: State, es: seq<Event>)
    requires Shape(s) && es == []
    ensures Runnable(s, es) && Run(s, es) == s && Ticks(es) == 0
  {
  }

  /** A step that puts the running task to sleep. */
  lemma SleepStarts(s: State, ms: int)
    requires Settled(s) && s.current != IDLE && 0 < ms <= MAX_MS
    ensures Shape(s) && Shape(Step(s, Sleep(ms))) && Settled(Step(s, Sleep(ms)))
    ensures var s' := Step(s, Sleep(ms));
            && s'.clock == s.clock && s.current in s'.timers && s.current < |s'.tasks| == TASKS
            && s'.tasks[s.current].expire == (s.clock + ms) % WORD
  {
    hide *;
    SettledSorted(s);
    SleepEnabled(s, ms);
    StepKeeps(s, Sleep(ms));
    CallTimers(s, Sleep(ms));
    JoinsIs(s, Step(s, Sleep(ms)), s.current, (s.clock + ms) % WORD);
  }

  lemma SleepEnabled(s: State, ms: int)
    requires s.current != IDLE && ms <= MAX_MS
    ensures Enabled(s, Sleep(ms)) && WORD > 0
  {
  }

  /** For ms - 1 ticks the task is off the ready queues, whatever else happens, and the next tick makes it ready. */
  ghost predicate SleepsFor(s: State, t: nat, ms: int)
    requires Shape(s) && t < TASKS
  {
    forall es :: Runnable(s, es) && Ticks(es) < ms ==> SleepsOver(s, t, ms, es)
  }

  ghost predicate SleepsOver(s: State, t: nat, ms: int, es: seq<Event>)
    requires Shape(s) && t < TASKS && Runnable(s, es)
  {
    var s' := Run(s, es);
    && Shape(s') && t in s'.timers && !Ready(s', t)
    && (Ticks(es) == ms - 1 ==> Shape(Step(s', Tick)) && t !in Step(s', Tick).timers && Ready(Step(s', Tick), t))
  }

  /** Sleep is exact over every run exactly when the expiry does not wrap, or the counter is at its last value, so that
      it wraps with the next tick too. */
  lemma SleepExact(s: State, ms: int)
    requires Settled(s) && s.current != IDLE && 0 < ms <= MAX_MS
    ensures Shape(s) && Shape(Step(s, Sleep(ms))) && s.current < TASKS
    ensures SleepsFor(Step(s, Sleep(ms)), s.current, ms) <==> s.clock + ms < WORD || s.clock == WORD - 1
  {
    hide *;
    SleepStarts(s, ms);
    ClockBound(s);
    BelowTwice(s.clock, ms);
    SmallMod(s.clock + ms);
    var s1, t := Step(s, Sleep(ms)), s.current;
    if s.clock + ms < WORD || s.clock == WORD - 1 {
      forall es | Runnable(s1, es) && Ticks(es) < ms
        ensures SleepsOver(s1, t, ms, es)
      {
        SleepsOn(s, ms, es);
      }
      SleepsForIs(s1, t, ms);
    } else {
      SleepWraps(s, ms);
      OneTick(s1);
      if SleepsFor(s1, t, ms) {
        SleepsForOne(s1, t, ms, [Tick]);
      }
    }
  }

  lemma SleepsForIs(s: State, t: nat, ms: int)
    requires Shape(s) && t < TASKS && forall es :: Runnable(s, es) && Ticks(es) < ms ==> SleepsOver(s, t, ms, es)
    ensures SleepsFor(s, t, ms)
  {
  }

  lemma SleepsForOne(s: State, t: nat, ms: int, es: seq<Event>)
    requires Shape(s) && t < TASKS && SleepsFor(s, t, ms) && Runnable(s, es) && Ticks(es) < ms
    ensures t in Run(s, es).timers
  {
    assert SleepsOver(s, t, ms, es);
  }

  lemma OneTick(s: State)
    requires Shape(s) && Shape(Step(s, Tick))
    ensures Runnable(s, [Tick]) && Run(s, [Tick]) == Step(s, Tick) && Ticks([Tick]) == 1
  {
    assert [Tick][1..] == [];
  }

  lemma ClockBound(s: State)
    requires Settled(s)
    ensures s.clock < WORD && WORD == 0x1_0000_0000
  {
  }

  lemma SleepsOn(s: State, ms: int, es: seq<Event>)
    requires Settled(s) && s.current != IDLE && 0 < ms <= MAX_MS && (s.clock + ms < WORD || s.clock == WORD - 1)
    requires Shape(Step(s, Sleep(ms))) && Runnable(Step(s, Sleep(ms)), es) && Ticks(es) < ms && s.current < TASKS
    ensures SleepsOver(Step(s, Sleep(ms)), s.current, ms, es)
  {
    hide *;
    SleepStarts(s, ms);
    ClockBound(s);
    BelowTwice(s.clock, ms);
    SmallMod(s.clock + ms);
    var s1, t := Step(s, Sleep(ms)), s.current;
    if s.clock + ms < WORD {
      RunSleeps(s1, es, t);
    } else {
      RunSleepsOver(s1, es, t);
    }
    var s' := Run(s1, es);
    LaterIs(s'.clock);
    SettledSorted(s');
    AsleepNotReady(s', t);
    if Ticks(es) == ms - 1 {
      WokenReady(s', t);
    }
    SleepsOverIs(s1, t, ms, es);
  }

  lemma SleepsOverIs(s: State, t: nat, ms: int, es: seq<Event>)
    requires Shape(s) && t < TASKS && Runnable(s, es) && Shape(Run(s, es)) && t in Run(s, es).timers && !Ready(Run(s, es), t)
    requires Ticks(es) == ms - 1 ==>
               Shape(Step(Run(s, es), Tick)) && t !in Step(Run(s, es), Tick).timers && Ready(Step(Run(s, es), Tick), t)
    ensures SleepsOver(s, t, ms, es)
  {
  }

  lemma SmallMod(x: nat)
    ensures x < WORD ==> x % WORD == x
    ensures WORD <= x < 2 * WORD ==> x % WORD == x - WORD
  {
  }

  /** Where exactness ends: any other sleep across the wrap of the tick counter is over at the very next tick. */
  lemma SleepWraps(s: State, ms: int)
    requires Settled(s) && s.current != IDLE && 0 < ms <= MAX_MS
    ensures Shape(Step(s, Sleep(ms))) && Settled(Step(s, Sleep(ms))) && Shape(Step(Step(s, Sleep(ms)), Tick))
    ensures s.current !in Step(Step(s, Sleep(ms)), Tick).timers <==> ms == 1 || (s.clock + ms >= WORD && s.clock < WORD - 1)
  {
    hide *;
    SleepStarts(s, ms);
    ClockBound(s);
    LaterIs(s.clock);
    BelowTwice(s.clock, ms);
    SmallMod(s.clock + ms);
    TickTimers(Step(s, Sleep(ms)));
  }

  lemma BelowTwice(clock: nat, ms: int)
    requires clock < WORD && 0 < ms <= MAX_MS
    ensures clock + ms < 2 * WORD && ms < WORD - 1
  {
  }

  // ----- time slices

  /** The queue p is the highest one that is not empty, and its members can all be preempted. */
  ghost predicate Slices(s: State, p: nat, queue: seq<nat>) {
    && Settled(s) && Shape(s) && p < PRIORITIES && queue == s.ready[p] && queue != [] && TopQueue(s.ready) == p
    && forall i :: 0 <= i < |queue| ==> queue[i] < TASKS && s.tasks[queue[i]].preemptible
  }

  /** Time slices of the tasks, apart from what c has left of its own. */
  ghost predicate SameSlices(s: State, s': State, c: nat, left: nat) {
    && |s'.tasks| == |s.tasks| && c < |s.tasks| && s'.tasks[c].ticksLeft == left
    && (forall t: nat :: t < |s.tasks| ==> s'.tasks[t].preemptible == s.tasks[t].preemptible
                                           && s'.tasks[t].quantum == s.tasks[t].quantum)
    && (forall t: nat :: t < |s.tasks| && t != c ==> s'.tasks[t].ticksLeft == s.tasks[t].ticksLeft)
  }

  /** No queue down to p has grown or shrunk: nobody there has blocked and nobody has arrived. */
  ghost predicate Steady(s: State, s': State, p: nat) {
    |s'.ready| == |s.ready| && forall q :: 0 <= q <= p && q < |s.ready| ==> |s'.ready[q]| == |s.ready[q]|
  }

  /** The same for every step of a run, whatever the steps are. */
  ghost predicate SteadyRun(s: State, es: seq<Event>, p: nat)
    requires Shape(s) && Runnable(s, es)
    decreases |es|
  {
    es == [] || (Steady(s, Step(s, es[0]), p) && SteadyRun(Step(s, es[0]), es[1..], p))
  }

  /** The running task has left the head of its queue for the back, or it goes on with that many ticks less, or if it has no more
      ticks it has gone to the back with a new quantum. */
  ghost predicate Turned(s: State, s': State, p: nat, queue: seq<nat>, ticks: nat, leaves: bool) {
    && queue != [] && p < |s'.ready| && queue[0] < |s.tasks|
    && var c := queue[0];
    var left := s.tasks[c].ticksLeft;
    if leaves then s'.ready[p] == queue[1..] + [c] && SameSlices(s, s', c, left)
    else if left > ticks then s'.ready[p] == queue && SameSlices(s, s', c, left - ticks)
    else s'.ready[p] == queue[1..] + [c] && SameSlices(s, s', c, s.tasks[c].quantum)
  }

  function TickOf(e: Event): nat {
    if e.Tick? then 1 else 0
  }

  lemma ResumeSlices(s: State)
    requires Shape(s)
    ensures Resume(s).ready == s.ready && |Resume(s).tasks| == |s.tasks|
    ensures forall t: nat :: t < |s.tasks| ==>
              && Resume(s).tasks[t].ticksLeft == s.tasks[t].ticksLeft && Resume(s).tasks[t].quantum == s.tasks[t].quantum
              && Resume(s).tasks[t].preemptible == s.tasks[t].preemptible
  {
    ShapeSwitch(s);
  }

  lemma SlicesFacts(s: State, p: nat, queue: seq<nat>)
    requires Slices(s, p, queue)
    ensures Settled(s) && Shape(s) && p < |s.ready| == PRIORITIES && queue == s.ready[p] && queue != []
    ensures var c := queue[0];
            && c < TASKS && |s.tasks| == TASKS && s.current == c && s.tasks[c].priority == p && s.tasks[c].preemptible
            && 1 <= s.tasks[c].ticksLeft <= s.tasks[c].quantum < 0x1_0000
  {
    assert Placed(s, queue[0]);
  }

  lemma {:induction false} WakeGrows(s: State, p: nat)
    requires Shape(s) && p < PRIORITIES
    ensures |Wake(s).ready| == PRIORITIES && s.ready[p] <= Wake(s).ready[p] && Wake(s).tasks == s.tasks
    decreases |s.timers|
  {
    if s.timers != [] && s.tasks[s.timers[0]].expire <= s.clock {
      var s1 := s.(timers := s.timers[1..]);
      ShapeEnqueue(s1, s.timers[0]);
      WakeGrows(Enqueue(s1, s.timers[0]), p);
    }
  }

  lemma SliceTask(s: State, p: nat, queue: seq<nat>)
    requires Shape(s) && p < PRIORITIES && queue == s.ready[p] && queue != []
    requires s.current == queue[0] && s.tasks[queue[0]].priority == p && s.tasks[queue[0]].preemptible
    requires 1 <= s.tasks[queue[0]].ticksLeft <= s.tasks[queue[0]].quantum < 0x1_0000
    ensures Shape(TickTask(s)) && Turned(s, TickTask(s), p, queue, 1, false) && |TickTask(s).ready[p]| == |queue|
  {
    var c := queue[0];
    ShapeTick(s);
    ShapeDequeue(SetTicks(s, s.tasks[c].quantum), c);
    assert Without(queue, c) == queue[1..];
  }

  lemma TickTurn(s: State, p: nat, queue: seq<nat>)
    requires Slices(s, p, queue) && Steady(s, TimerTick(s), p)
    ensures Turned(s, TimerTick(s), p, queue, 1, false)
  {
    hide *;
    SlicesFacts(s, p, queue);
    var s1 := TickIs(s);
    SliceTask(s1, p, queue);
    WakeGrows(TickTask(s1), p);
    WokenTurn(s, s1, TickTask(s1), TimerTick(s), p, queue);
  }

  lemma TickIs(s: State) returns (s1: State)
    requires Shape(s)
    ensures s1 == s.(clock := s1.clock) && Shape(s1) && Shape(TickTask(s1)) && TimerTick(s) == Wake(TickTask(s1))
  {
    s1 := s.(clock := (s.clock + 1) % WORD);
    ShapeTick(s1);
  }

  /** Tasks that are woken are further down. */
  lemma WokenTurn(s: State, s0: State, s1: State, s2: State, p: nat, queue: seq<nat>)
    requires p < |s.ready| && s.ready[p] == queue && s0 == s.(clock := s0.clock) && Turned(s0, s1, p, queue, 1, false)
    requires |s1.ready[p]| == |queue| && p < |s2.ready| && s1.ready[p] <= s2.ready[p] && s2.tasks == s1.tasks
    requires Steady(s, s2, p)
    ensures Turned(s, s2, p, queue, 1, false)
  {
    assert s2.ready[p] == s1.ready[p];
  }

  /** A task that arrives further down leaves queue p as it is. */
  lemma EnqueueSteady(s: State, t: nat, p: nat)
    requires Shape(s) && t < TASKS && p < PRIORITIES && Steady(s, Enqueue(s, t), p)
    ensures Enqueue(s, t).ready[p] == s.ready[p]
  {
  }

  lemma DequeueUnsteady(s: State, p: nat)
    requires Shape(s) && p < PRIORITIES && s.ready[p] != [] && s.ready[p][0] == s.current && s.tasks[s.current].priority == p
    ensures !Steady(s, Dequeue(s, s.current), p)
  {
    assert Without(s.ready[p], s.current) == s.ready[p][1..];
  }

  lemma PreemptTurn(s: State, p: nat, queue: seq<nat>)
    requires Slices(s, p, queue)
    ensures Shape(Dequeue(s, s.current)) && Turned(s, PreemptTask(s, s.current), p, queue, 0, true)
  {
    SlicesFacts(s, p, queue);
    ShapeDequeue(s, s.current);
    assert Without(queue, queue[0]) == queue[1..];
  }

  /** A message changes no time slice; the tasks it makes ready or not are a matter of the queues. */
  ghost predicate SameTurn(s: State, s': State) {
    && s'.ready == s.ready && s'.current == s.current && |s'.tasks| == |s.tasks|
    && forall t: nat :: t < |s.tasks| ==>
         && s'.tasks[t].ticksLeft == s.tasks[t].ticksLeft && s'.tasks[t].quantum == s.tasks[t].quantum
         && s'.tasks[t].preemptible == s.tasks[t].preemptible && s'.tasks[t].priority == s.tasks[t].priority
  }

  lemma MailTurn(s: State, d: nat, contents: Message, k: nat, from: int, pointer: nat)
    requires Shape(s) && d < TASKS
    ensures SameTurn(s, HandOver(s, d, contents)) && SameTurn(s, QueueUp(s, d, contents))
    ensures SameTurn(s, Await(s, from, pointer))
    ensures k < |s.senders[s.current]| ==> SameTurn(s, Take(s, k))
  {
  }

  /** After something that is not about queues, a task is made ready. */
  lemma ArrivalTurn(s: State, s1: State, t: nat, r: int, p: nat, queue: seq<nat>)
    requires Slices(s, p, queue) && SameTurn(s, s1) && Shape(s1) && t < TASKS
    requires Shape(Enqueue(s1, t)) && Steady(s, SetResult(Enqueue(s1, t), r), p)
    ensures Turned(s, SetResult(Enqueue(s1, t), r), p, queue, 0, false)
  {
    SlicesFacts(s, p, queue);
    assert Steady(s1, Enqueue(s1, t), p);
    EnqueueSteady(s1, t, p);
    hide Settled, Shape;
  }

  /** The running task can not have blocked. */
  lemma BlockedTurn(s: State, s1: State, r: int, p: nat, queue: seq<nat>)
    requires Slices(s, p, queue) && SameTurn(s, s1) && Shape(s1) && Shape(Dequeue(s1, s1.current))
    ensures !Steady(s, SetResult(Dequeue(s1, s1.current), r), p)
  {
    SlicesFacts(s, p, queue);
    DequeueUnsteady(s1, p);
    hide Settled, Shape;
  }

  lemma SameTurned(s: State, r: int, p: nat, queue: seq<nat>)
    requires Slices(s, p, queue)
    ensures Turned(s, SetResult(s, r), p, queue, 0, false)
  {
    SlicesFacts(s, p, queue);
  }

  lemma SendTurn(s: State, dest: int, contents: Message, p: nat, queue: seq<nat>)
    requires Slices(s, p, queue) && Shape(s) && Steady(s, SendMessage(s, dest, contents), p)
    ensures Turned(s, SendMessage(s, dest, contents), p, queue, 0, false)
  {
    var d := FindTask(s.tasks, dest);
    SameTurned(s, -1, p, queue);
    if d < TASKS {
      hide Slices, Turned, Steady, SameTurn, HandOver, QueueUp, Enqueue, Dequeue, SetResult;
      MailTurn(s, d, contents, 0, 0, 0);
      ShapeTransfers(s, d, contents);
      ShapeEnqueue(HandOver(s, d, contents), d);
      ShapeDequeue(QueueUp(s, d, contents), s.current);
      if Accepts(s.tasks[d], s.tasks[s.current].pid) {
        ArrivalTurn(s, HandOver(s, d, contents), d, 0, p, queue);
      } else {
        QueueUpCurrent(s, d, contents);
        BlockedTurn(s, QueueUp(s, d, contents), 0, p, queue);
      }
    }
  }

  lemma QueueUpCurrent(s: State, d: nat, contents: Message)
    requires Shape(s) && d < TASKS
    ensures QueueUp(s, d, contents).current == s.current
  {
  }

  lemma ReceiveTurn(s: State, from: int, pointer: nat, p: nat, queue: seq<nat>)
    requires Slices(s, p, queue) && Shape(s) && Steady(s, ReceiveMessage(s, from, pointer), p)
    ensures Turned(s, ReceiveMessage(s, from, pointer), p, queue, 0, false)
  {
    SameTurned(s, -1, p, queue);
    var k := FirstMatch(s.senders[s.current], s.tasks, from);
    hide Slices, Turned, Steady, SameTurn, Take, Enqueue, Dequeue, SetResult;
    MailTurn(s, s.current, Zeros(), k, from, pointer);
    ShapeAnswers(s, k, from, pointer);
    if from != NO_TASK {
      if k < |s.senders[s.current]| {
        ShapeEnqueue(Take(s, k), s.senders[s.current][k]);
        ArrivalTurn(s, Take(s, k), s.senders[s.current][k], 0, p, queue);
      } else {
        ShapeDequeue(Await(s, from, pointer), s.current);
        BlockedTurn(s, Await(s, from, pointer), 0, p, queue);
      }
    }
  }

  lemma SleepTurn(s: State, ms: int, p: nat, queue: seq<nat>)
    requires Slices(s, p, queue) && Shape(s) && Shape(SleepTask(s, ms)) && Steady(s, SetResult(SleepTask(s, ms), 0), p)
    ensures Turned(s, SetResult(SleepTask(s, ms), 0), p, queue, 0, false)
  {
    hide Slices, Turned, Steady, SameTurn, SetTimer, Dequeue, SetResult;
    SameTurned(s, 0, p, queue);
    if ms > 0 {
      TimerTurn(s, Expiry(s.clock, ms));
      ShapeDequeue(SetTimer(s, Expiry(s.clock, ms)), s.current);
      BlockedTurn(s, SetTimer(s, Expiry(s.clock, ms)), 0, p, queue);
    }
  }

  lemma TimerTurn(s: State, expire: nat)
    requires Shape(s)
    ensures Shape(SetTimer(s, expire)) && SameTurn(s, SetTimer(s, expire)) && SetTimer(s, expire).current == s.current
  {
    ShapeTimer(s, expire);
  }

  lemma TurnedResult(s: State, s1: State, r: int, p: nat, queue: seq<nat>)
    requires Shape(s1) && Turned(s, s1, p, queue, 0, true)
    ensures Turned(s, SetResult(s1, r), p, queue, 0, true)
  {
  }

  /** Handling an event on a steady queue. */
  lemma HandleTurn(s: State, e: Event, p: nat, queue: seq<nat>)
    requires Slices(s, p, queue) && Shape(s) && Steady(s, Handle(s, e), p)
    ensures Turned(s, Handle(s, e), p, queue, TickOf(e), e.Preempt?)
  {
    hide Slices, Turned, Steady, Shape, TimerTick, SleepTask, PreemptTask, SendMessage, ReceiveMessage, SetResult;
    match e
    case Tick => TickTurn(s, p, queue);
    case Sleep(ms) =>
      ShapeSleep(s, ms);
      SleepTurn(s, ms, p, queue);
    case Preempt =>
      PreemptTurn(s, p, queue);
      ShapePreempt(s);
      TurnedResult(s, PreemptTask(s, s.current), 0, p, queue);
    case GetPid =>
      ShapeIs(s);
      SameTurned(s, s.tasks[s.current].pid, p, queue);
    case Send(dest, contents) => SendTurn(s, dest, contents, p, queue);
    case Receive(from, pointer) => ReceiveTurn(s, from, pointer, p, queue);
    case Other => SameTurned(s, 0, p, queue);
  }

  lemma ShapePreempt(s: State)
    requires Shape(s)
    ensures Shape(Dequeue(s, s.current)) && Shape(PreemptTask(s, s.current)) && s.current < TASKS
  {
    ShapeDequeue(s, s.current);
    ShapeEnqueue(Dequeue(s, s.current), s.current);
  }

  lemma ResumedTurn(s: State, s1: State, s': State, p: nat, queue: seq<nat>, ticks: nat, leaves: bool)
    requires Turned(s, s1, p, queue, ticks, leaves) && s'.ready == s1.ready && |s'.tasks| == |s1.tasks|
    requires forall t: nat :: t < |s1.tasks| ==>
               && s'.tasks[t].ticksLeft == s1.tasks[t].ticksLeft && s'.tasks[t].quantum == s1.tasks[t].quantum
               && s'.tasks[t].preemptible == s1.tasks[t].preemptible
    ensures Turned(s, s', p, queue, ticks, leaves)
  {
  }

  /** One step on a steady queue: its tasks stay in turn, the running task pays for each tick, and it goes to the back exactly with
      its last tick or when it preempts itself. */
  lemma StepTurn(s: State, e: Event, p: nat, queue: seq<nat>)
    requires Slices(s, p, queue) && Shape(s) && Enabled(s, e) && Shape(Step(s, e)) && Steady(s, Step(s, e), p)
    ensures Turned(s, Step(s, e), p, queue, TickOf(e), e.Preempt?)
    ensures queue != [] && (Slices(Step(s, e), p, queue) || Slices(Step(s, e), p, queue[1..] + [queue[0]]))
    ensures Slices(Step(s, e), p, Step(s, e).ready[p])
  {
    hide *;
    SlicesFacts(s, p, queue);
    StepShape(s, e);
    StepKeeps(s, e);
    StepIs(s, e);
    ResumeSlices(Handle(s, e));
    SteadySame(s, Handle(s, e), Step(s, e), p);
    HandleTurn(s, e, p, queue);
    ResumedTurn(s, Handle(s, e), Step(s, e), p, queue, TickOf(e), e.Preempt?);
    SlicesAfter(s, Step(s, e), p, queue, TickOf(e), e.Preempt?);
  }

  lemma StepIs(s: State, e: Event)
    requires Shape(s) && Shape(Handle(s, e))
    ensures Step(s, e) == Resume(Handle(s, e))
  {
  }

  lemma SteadySame(s: State, s1: State, s': State, p: nat)
    requires Steady(s, s', p) && s'.ready == s1.ready
    ensures Steady(s, s1, p)
  {
  }

  lemma SlicesAfter(s: State, s': State, p: nat, queue: seq<nat>, ticks: nat, leaves: bool)
    requires Slices(s, p, queue) && Settled(s') && Shape(s') && Turned(s, s', p, queue, ticks, leaves) && Steady(s, s', p)
    ensures p < |s'.ready| && Slices(s', p, s'.ready[p])
    ensures queue != [] && (s'.ready[p] == queue || s'.ready[p] == queue[1..] + [queue[0]])
  {
    TopQueueIs(s'.ready, p);
    forall i | 0 <= i < |s'.ready[p]|
      ensures s'.ready[p][i] in queue
    {
    }
    hide Settled, Shape;
  }

  /** Quanta of the tasks on a queue are at most q. */
  ghost predicate QuantaUpTo(s: State, queue: seq<nat>, q: nat) {
    forall i :: 0 <= i < |queue| ==> queue[i] < |s.tasks| && s.tasks[queue[i]].quantum <= q
  }

  /** The ticks after which the i-th task of the queue runs at the latest. */
  function WaitAtMost(s: State, queue: seq<nat>, i: nat, q: nat): nat
    requires i < |queue| && queue[0] < |s.tasks|
  {
    if i == 0 then 0 else s.tasks[queue[0]].ticksLeft + (i - 1) * q
  }

  /** A step brings the i-th task nearer to its turn. */
  lemma WaitShrinks(s: State, s': State, p: nat, queue: seq<nat>, i: nat, q: nat, ticks: nat, leaves: bool) returns (j: nat)
    requires Turned(s, s', p, queue, ticks, leaves) && (leaves ==> ticks == 0) && ticks <= 1
    requires QuantaUpTo(s, queue, q) && 0 < i < |queue|
    requires forall t: nat :: t < |s.tasks| && t in queue ==> 1 <= s.tasks[t].ticksLeft <= s.tasks[t].quantum
    ensures QuantaUpTo(s', s'.ready[p], q)
    ensures j < |s'.ready[p]| && s'.ready[p][j] == queue[i] && s'.ready[p][0] < |s'.tasks|
    ensures WaitAtMost(s', s'.ready[p], j, q) + ticks <= WaitAtMost(s, queue, i, q)
  {
    if !leaves && s.tasks[queue[0]].ticksLeft > ticks {
      j := i;
    } else {
      j := i - 1;
      assert queue[1] in queue && queue[0] in queue;
      if i > 1 {
        Times(i - 1, q);
      }
    }
  }

  lemma SlicesLeft(s: State, p: nat, queue: seq<nat>)
    requires Slices(s, p, queue)
    ensures forall t: nat :: t < |s.tasks| && t in queue ==> 1 <= s.tasks[t].ticksLeft <= s.tasks[t].quantum
  {
    forall t: nat | t < |s.tasks| && t in queue
      ensures 1 <= s.tasks[t].ticksLeft <= s.tasks[t].quantum
    {
      assert Placed(s, t);
    }
    hide Shape;
  }

  lemma RunUnrolls(s: State, es: seq<Event>, k: nat)
    requires Shape(s) && Runnable(s, es) && es != [] && k < |es|
    requires Shape(Step(s, es[0])) && Runnable(Step(s, es[0]), es[1..]) && Runnable(Step(s, es[0]), es[1..][..k])
    ensures Runnable(s, es[..k + 1]) && Run(s, es[..k + 1]) == Run(Step(s, es[0]), es[1..][..k])
    ensures Ticks(es[..k + 1]) == TickOf(es[0]) + Ticks(es[1..][..k])
  {
    assert es[..k + 1][0] == es[0] && es[..k + 1][1..] == es[1..][..k];
  }

  lemma RunFirst(s: State, es: seq<Event>)
    requires Shape(s) && Runnable(s, es) && es != []
    ensures Enabled(s, es[0]) && Shape(Step(s, es[0])) && Runnable(Step(s, es[0]), es[1..])
    ensures Run(s, es) == Run(Step(s, es[0]), es[1..])
    ensures Ticks(es) == TickOf(es[0]) + Ticks(es[1..]) && TickOf(es[0]) <= 1 && (es[0].Preempt? ==> TickOf(es[0]) == 0)
  {
  }

  lemma RunNone(s: State, es: seq<Event>)
    requires Shape(s) && Runnable(s, es)
    ensures Runnable(s, es[..0]) && Run(s, es[..0]) == s && Ticks(es[..0]) == 0
    ensures es == [] ==> Ticks(es) == 0
  {
  }

  lemma SteadyFirst(s: State, es: seq<Event>, p: nat)
    requires Shape(s) && Runnable(s, es) && es != [] && SteadyRun(s, es, p)
    ensures Shape(Step(s, es[0])) && Runnable(Step(s, es[0]), es[1..])
    ensures Steady(s, Step(s, es[0]), p) && SteadyRun(Step(s, es[0]), es[1..], p)
  {
  }

  lemma WaitIs(s: State, queue: seq<nat>, i: nat, q: nat)
    requires i < |queue| && queue[0] < |s.tasks|
    ensures WaitAtMost(s, queue, i, q) == if i == 0 then 0 else s.tasks[queue[0]].ticksLeft + (i - 1) * q
    ensures i > 0 ==> (i - 1) * q >= 0
  {
  }

  /** Whatever the tasks do meanwhile, as long as nobody blocks or arrives on the queues down to p: the i-th task of the
      queue runs once that many ticks have passed. */
  lemma {:induction false} TurnComes(s: State, es: seq<Event>, p: nat, queue: seq<nat>, i: nat, q: nat) returns (k: nat)
    requires Slices(s, p, queue) && Shape(s) && Runnable(s, es) && SteadyRun(s, es, p)
    requires i < |queue| && QuantaUpTo(s, queue, q) && queue[0] < |s.tasks|
    requires WaitAtMost(s, queue, i, q) <= Ticks(es)
    ensures k <= |es| && Runnable(s, es[..k]) && Run(s, es[..k]).current == queue[i]
    ensures Ticks(es[..k]) <= WaitAtMost(s, queue, i, q)
    decreases |es|
  {
    hide *;
    SlicesFacts(s, p, queue);
    WaitIs(s, queue, i, q);
    RunNone(s, es);
    if i == 0 {
      k := 0;
    } else {
      RunFirst(s, es);
      SteadyFirst(s, es, p);
      StepTurn(s, es[0], p, queue);
      SlicesLeft(s, p, queue);
      var s1 := Step(s, es[0]);
      SlicesFacts(s1, p, s1.ready[p]);
      var j := WaitShrinks(s, s1, p, queue, i, q, TickOf(es[0]), es[0].Preempt?);
      k := TurnComes(s1, es[1..], p, s1.ready[p], j, q);
      RunUnrolls(s, es, k);
      k := k + 1;
    }
  }

  /** Round robin: in a run in which nobody blocks or arrives on the queues down to p, the i-th task of the
      highest-priority queue runs after at most i quanta. */
  lemma RoundRobin(s: State, es: seq<Event>, p: nat, queue: seq<nat>, i: nat, q: nat) returns (k: nat)
    requires Slices(s, p, queue) && Shape(s) && Runnable(s, es) && SteadyRun(s, es, p)
    requires i < |queue| && QuantaUpTo(s, queue, q) && i * q <= Ticks(es)
    ensures k <= |es| && Runnable(s, es[..k]) && Run(s, es[..k]).current == queue[i] && Ticks(es[..k]) <= i * q
  {
    hide *;
    SlicesFacts(s, p, queue);
    QuantumIs(s, queue, q);
    WaitIs(s, queue, i, q);
    if i > 0 {
      Times(i, q);
    }
    k := TurnComes(s, es, p, queue, i, q);
  }

  lemma Times(i: nat, q: nat)
    requires i > 0
    ensures 0 <= (i - 1) * q && i * q == (i - 1) * q + q && q <= i * q
  {
  }

  lemma QuantumIs(s: State, queue: seq<nat>, q: nat)
    requires queue != [] && QuantaUpTo(s, queue, q)
    ensures queue[0] < |s.tasks| && s.tasks[queue[0]].quantum <= q
  {
  }
}
