/** Whole runs of the kernel's tasks, from boot on. */
module KernelRun {
  import opened TaskModel
  import opened TaskInv
  import opened TaskRuns
  import opened Kernel
  import TaskOrder

  datatype Setup = Setup(priority: nat, preemptible: bool)

  /** The first n tasks are there, in the slots after the idle task's. */
  function Created(s: State, setups: seq<Setup>, n: nat): (s': State)
    requires |s.tasks| == TASKS && n <= |setups| < TASKS
    ensures |s'.tasks| == TASKS
  {
    if n == 0 then s
    else
      var s1 := Created(s, setups, n - 1);
      s1.(tasks := s1.tasks[n := NewTask(n, setups[n - 1].priority).(preemptible := setups[n - 1].preemptible)])
  }

  /** The first n of them are ready. */
  function Started(s: State, n: nat): (s': State)
    requires Shape(s) && n < TASKS
    ensures Shape(s')
  {
    if n == 0 then s else ShapeEnqueue(Started(s, n - 1), n); Enqueue(Started(s, n - 1), n)
  }

  lemma {:induction false} CreatedShape(s: State, setups: seq<Setup>, n: nat)
    requires Shape(s) && n <= |setups| < TASKS && forall i :: 0 <= i < |setups| ==> setups[i].priority < PRIORITIES
    ensures Shape(Created(s, setups, n))
  {
    if n > 0 {
      CreatedShape(s, setups, n - 1);
    }
  }

  /** What the kernel starts from: the tasks are ready in the order of their creation and the first one of the best
      priority runs. */
  ghost predicate Booted(first: State, setups: seq<Setup>)
    requires |setups| < TASKS && forall i :: 0 <= i < |setups| ==> setups[i].priority < PRIORITIES
  {
    && Shape(FirstState()) && Shape(Created(FirstState(), setups, |setups|))
    && first == Resume(Started(Created(FirstState(), setups, |setups|), |setups|))
  }

  /** kernel_main: tasks are created, then started, and the first one is switched to. */
  method Boot(setups: seq<Setup>) returns (k: Tasks)
    requires |setups| < TASKS && forall i :: 0 <= i < |setups| ==> setups[i].priority < PRIORITIES
    ensures fresh(k) && Booted(k.View(), setups)
    ensures k.Linked() && Settled(k.View()) && Accounts(k.View()) && NothingDue(k.View()) && k.View().clock == 0
    ensures forall b: nat :: b < TASKS ==> Answered(k.View(), b, [])
    ensures 0 <= k.current < TASKS && k.next >= 0
  {
    hide *;
    k := new Tasks();
    ghost var s0, waiting: set<nat> := k.View(), {};
    FirstShape();
    CreatedNone(s0, setups);
    for i := 0 to |setups|
      invariant fresh(k) && k.Booting(waiting) && k.pidCount == i + 1 && (forall t: nat :: t in waiting <==> 1 <= t <= i)
      invariant k.View() == Created(s0, setups, i)
    {
      SlotsLeft(i, |setups|);
      CreatedNext(s0, setups, i);
      var t := k.CreateKernelTask(setups[i].priority, true, waiting);
      k.SetPreemptible(t, setups[i].preemptible, waiting + {t});
      waiting := waiting + {t};
    }
    CreatedShape(s0, setups, |setups|);
    ghost var s1 := k.View();
    StartedNone(s1);
    for i := 0 to |setups|
      invariant fresh(k) && k.Booting(waiting) && (forall t: nat :: t in waiting <==> i < t <= |setups|)
      invariant k.View() == Started(s1, i)
    {
      StartedNext(s1, i);
      Start(k, i + 1, waiting);
      waiting := waiting - {i + 1};
    }
    BootingEnds(k, waiting);
    k.ResumeTask();
    BootedIs(k.View(), setups);
  }

  lemma FirstShape()
    ensures Shape(FirstState()) && |FirstState().tasks| == TASKS
  {
    FirstStateOK();
  }

  lemma CreatedNone(s: State, setups: seq<Setup>)
    requires |s.tasks| == TASKS && |setups| < TASKS
    ensures Created(s, setups, 0) == s
  {
  }

  lemma CreatedNext(s: State, setups: seq<Setup>, n: nat)
    requires |s.tasks| == TASKS && n < |setups| < TASKS
    ensures var s1 := Created(s, setups, n);
            && |s1.tasks| == TASKS
            && var s2 := s1.(tasks := s1.tasks[n + 1 := NewTask(n + 1, setups[n].priority)]);
            Created(s, setups, n + 1) ==
              s2.(tasks := s2.tasks[n + 1 := s2.tasks[n + 1].(preemptible := setups[n].preemptible)])
  {
    var s1 := Created(s, setups, n);
    var task := NewTask(n + 1, setups[n].priority);
    assert s1.tasks[n + 1 := task][n + 1 := task.(preemptible := setups[n].preemptible)]
           == s1.tasks[n + 1 := task.(preemptible := setups[n].preemptible)];
  }

  lemma StartedNone(s: State)
    requires Shape(s)
    ensures 0 < TASKS && Started(s, 0) == s
  {
  }

  lemma StartedNext(s: State, n: nat)
    requires Shape(s) && n + 1 < TASKS
    ensures Shape(Started(s, n)) && Started(s, n + 1) == Enqueue(Started(s, n), n + 1)
  {
  }

  lemma BootedIs(first: State, setups: seq<Setup>)
    requires |setups| < TASKS && forall i :: 0 <= i < |setups| ==> setups[i].priority < PRIORITIES
    requires Shape(FirstState()) && Shape(Created(FirstState(), setups, |setups|))
    requires first == Resume(Started(Created(FirstState(), setups, |setups|), |setups|))
    ensures Booted(first, setups)
  {
  }

  lemma {:induction false} CreatedLines(s: State, setups: seq<Setup>, n: nat)
    requires |s.tasks| == TASKS && n <= |setups| < TASKS
    ensures TaskOrder.SameLines(s, Created(s, setups, n))
  {
    if n > 0 {
      CreatedLines(s, setups, n - 1);
    }
  }

  lemma {:induction false} StartedLines(s: State, n: nat)
    requires Shape(s) && n < TASKS
    ensures TaskOrder.SameLines(s, Started(s, n))
  {
    if n > 0 {
      StartedLines(s, n - 1);
      ShapeEnqueue(Started(s, n - 1), n);
    }
  }

  /** No sender waits after boot. */
  lemma BootedInLine(first: State, setups: seq<Setup>)
    requires |setups| < TASKS && (forall i :: 0 <= i < |setups| ==> setups[i].priority < PRIORITIES) && Booted(first, setups)
    ensures Shape(first) && TaskOrder.InLine(first)
  {
    CreatedLines(FirstState(), setups, |setups|);
    var s := Created(FirstState(), setups, |setups|);
    StartedLines(s, |setups|);
    TaskOrder.ResumeLines(Started(s, |setups|));
    hide Resume, Started, Created, Shape;
    TaskOrder.NoneWaiting(first);
  }

  // ----- the tasks after boot

  /** The first n tasks of priority p, in the order of their creation. */
  function OfPriority(setups: seq<Setup>, n: nat, p: nat): seq<nat>
    requires n <= |setups|
  {
    if n == 0 then [] else OfPriority(setups, n - 1, p) + if setups[n - 1].priority == p then [n] else []
  }

  /** A task that has not run yet: it has its whole quantum of ten ticks, and no message. */
  ghost predicate IsNew(t: Task, pid: int, priority: nat, preemptible: bool) {
    && t.pid == pid && t.priority == priority && t.preemptible == preemptible && t.quantum == 10 && t.ticksLeft == 10
    && !t.sending && !t.receiving && !t.delivering && !t.afterSwitch && t.recPid == NO_TASK
    && |t.buffer| == 64 && forall i :: 0 <= i < 64 ==> t.buffer[i] == 0
  }

  lemma {:induction false} CreatedTasks(setups: seq<Setup>, n: nat)
    requires n <= |setups| < TASKS
    ensures var s := Created(FirstState(), setups, n);
            && s == FirstState().(tasks := s.tasks) && |s.tasks| == TASKS
            && IsNew(s.tasks[IDLE], IDLE, PRIORITIES - 1, false)
            && (forall t: nat :: 1 <= t <= n ==> IsNew(s.tasks[t], t, setups[t - 1].priority, setups[t - 1].preemptible))
            && (forall t: nat :: n < t < TASKS ==> s.tasks[t].pid == NO_TASK)
  {
    if n > 0 {
      CreatedTasks(setups, n - 1);
      hide FirstState;
    }
  }

  lemma {:induction false} StartedTasks(s: State, setups: seq<Setup>, n: nat)
    requires Shape(s) && n <= |setups| < TASKS
    requires forall t: nat :: 1 <= t <= n ==> s.tasks[t].priority == setups[t - 1].priority
    ensures Started(s, n) == s.(ready := Started(s, n).ready, reschedule := n > 0 || s.reschedule)
    ensures forall p :: 0 <= p < PRIORITIES ==> Started(s, n).ready[p] == s.ready[p] + OfPriority(setups, n, p)
  {
    if n > 0 {
      StartedTasks(s, setups, n - 1);
    }
  }

  lemma ResumedTasks(s: State)
    requires Shape(s) && s.reschedule && forall t: nat :: t < TASKS && s.tasks[t].pid != NO_TASK ==> !s.tasks[t].afterSwitch
    requires s.tasks[Choose(s.ready)].pid != NO_TASK && Choose(s.ready) < TASKS
    ensures Resume(s) == s.(reschedule := false, next := Choose(s.ready), current := Choose(s.ready))
  {
    ShapeSwitch(s);
  }

  /** After boot every task is new, each ready queue has the tasks of its priority in the order of their creation, nobody sleeps or
      waits, and the first task of the highest priority runs, or the idle task if there is no other. */
  lemma BootedTasks(first: State, setups: seq<Setup>)
    requires |setups| < TASKS && (forall i :: 0 <= i < |setups| ==> setups[i].priority < PRIORITIES) && Booted(first, setups)
    ensures |first.tasks| == TASKS && IsNew(first.tasks[IDLE], IDLE, PRIORITIES - 1, false)
    ensures forall t: nat :: 1 <= t <= |setups| ==> IsNew(first.tasks[t], t, setups[t - 1].priority, setups[t - 1].preemptible)
    ensures forall t: nat :: |setups| < t < TASKS ==> first.tasks[t].pid == NO_TASK
    ensures |first.ready| == PRIORITIES && forall p :: 0 <= p < PRIORITIES ==> first.ready[p] == OfPriority(setups, |setups|, p)
    ensures first.timers == [] && |first.senders| == TASKS && forall d :: 0 <= d < TASKS ==> first.senders[d] == []
    ensures first.clock == 0 && first.sent == first.handed == []
    ensures if TopQueue(first.ready) == PRIORITIES then first.current == IDLE
            else first.current == first.ready[TopQueue(first.ready)][0]
  {
    hide *;
    BootedMeans(first, setups);
    FirstLists();
    var s0 := Created(FirstState(), setups, |setups|);
    CreatedTasks(setups, |setups|);
    NewTasks(s0, setups);
    ShapeSizes(s0);
    StartedTasks(s0, setups, |setups|);
    var s1 := Started(s0, |setups|);
    ShapeSizes(s1);
    ChosenTask(s1.ready, setups);
    ChoiceIs(s1.ready);
    ResumedTasks(s1);
  }

  lemma ShapeSizes(s: State)
    requires Shape(s)
    ensures |s.ready| == PRIORITIES && |s.tasks| == TASKS
  {
  }

  lemma NewTasks(s: State, setups: seq<Setup>)
    requires |setups| < TASKS && |s.tasks| == TASKS && IsNew(s.tasks[IDLE], IDLE, PRIORITIES - 1, false)
    requires forall t: nat :: 1 <= t <= |setups| ==> IsNew(s.tasks[t], t, setups[t - 1].priority, setups[t - 1].preemptible)
    requires forall t: nat :: |setups| < t < TASKS ==> s.tasks[t].pid == NO_TASK
    ensures forall t: nat :: t <= |setups| ==> s.tasks[t].pid != NO_TASK
    ensures forall t: nat :: t < TASKS && s.tasks[t].pid != NO_TASK ==> !s.tasks[t].afterSwitch
    ensures forall t: nat :: 1 <= t <= |setups| ==> s.tasks[t].priority == setups[t - 1].priority
  {
    hide *;
    FirstLists();
    forall t: nat | t < TASKS
      ensures t <= |setups| ==> s.tasks[t].pid != NO_TASK
      ensures s.tasks[t].pid != NO_TASK ==> !s.tasks[t].afterSwitch
      ensures 1 <= t <= |setups| ==> s.tasks[t].priority == setups[t - 1].priority
    {
      if t == IDLE {
        NewIs(s.tasks[t], IDLE, PRIORITIES - 1, false);
      } else if t <= |setups| {
        NewIs(s.tasks[t], t, setups[t - 1].priority, setups[t - 1].preemptible);
      }
    }
  }

  lemma {:induction false} OfPriorityIn(setups: seq<Setup>, n: nat, p: nat)
    requires n <= |setups|
    ensures forall t :: t in OfPriority(setups, n, p) ==> t <= n
  {
    if n > 0 {
      OfPriorityIn(setups, n - 1, p);
    }
  }

  lemma ChosenTask(ready: seq<seq<nat>>, setups: seq<Setup>)
    requires |ready| == PRIORITIES && forall p :: 0 <= p < PRIORITIES ==> ready[p] == OfPriority(setups, |setups|, p)
    ensures Choose(ready) <= |setups|
  {
    hide *;
    ChoiceIs(ready);
    if TopQueue(ready) < PRIORITIES {
      OfPriorityIn(setups, |setups|, TopQueue(ready));
      assert ready[TopQueue(ready)][0] in ready[TopQueue(ready)];
    }
  }

  lemma ChoiceIs(ready: seq<seq<nat>>)
    ensures TopQueue(ready) <= |ready| && (TopQueue(ready) < |ready| ==> ready[TopQueue(ready)] != [])
    ensures Choose(ready) == if TopQueue(ready) == |ready| then 0 else ready[TopQueue(ready)][0]
    ensures IDLE == 0
  {
  }

  lemma FirstLists()
    ensures var s := FirstState();
            && s.ready == Empties(PRIORITIES) && s.senders == Empties(TASKS) && s.timers == [] && s.reschedule && s.clock == 0
            && s.sent == s.handed == []
    ensures PRIORITIES > 0 && IDLE == 0 < TASKS && |Empties(PRIORITIES)| == PRIORITIES && |Empties(TASKS)| == TASKS
    ensures forall p :: 0 <= p < PRIORITIES ==> Empties(PRIORITIES)[p] == []
    ensures forall d :: 0 <= d < TASKS ==> Empties(TASKS)[d] == []
  {
  }

  lemma BootedMeans(first: State, setups: seq<Setup>)
    requires |setups| < TASKS && (forall i :: 0 <= i < |setups| ==> setups[i].priority < PRIORITIES) && Booted(first, setups)
    ensures Shape(FirstState()) && |FirstState().tasks| == TASKS && Shape(Created(FirstState(), setups, |setups|))
    ensures first == Resume(Started(Created(FirstState(), setups, |setups|), |setups|))
  {
  }

  lemma NewIs(t: Task, pid: int, priority: nat, preemptible: bool)
    requires IsNew(t, pid, priority, preemptible)
    ensures t.pid == pid && t.priority == priority && !t.afterSwitch && (pid >= 0 ==> pid != NO_TASK)
  {
  }

  lemma SlotsLeft(i: nat, n: nat)
    requires i < n < TASKS
    ensures i + 1 < TASKS
  {
  }

  /** enqueue_task for a created task. */
  method Start(k: Tasks, t: nat, ghost waiting: set<nat>)
    requires k.Booting(waiting) && t in waiting
    modifies k
    ensures k.Booting(waiting - {t}) && k.pidCount == old(k.pidCount)
    ensures Shape(old(k.View())) && t < TASKS && k.View() == Enqueue(old(k.View()), t)
  {
    StartOK(k.View(), waiting, k.pidCount, t);
    hide BootState, QueuesLinked, Tasks.OthersLinked, StateOK, Shape, Ready, Tasks.Linked;
    k.EnqueueTask(t);
  }

  lemma BootingEnds(k: Tasks, waiting: set<nat>)
    requires k.Booting(waiting) && waiting == {}
    ensures k.Linked() && InvBut(k.View(), TASKS) && Cached(k.View()) && k.reschedule && Shape(k.View())
    ensures Settled(Resume(k.View())) && NothingDue(Resume(k.View())) && Accounts(Resume(k.View()))
    ensures Resume(k.View()).clock == 0 && forall b: nat :: b < TASKS ==> Answered(Resume(k.View()), b, [])
  {
    assert k.View().reschedule;
    BootEnds(k.View(), k.pidCount);
    NothingSent(k.View());
    NothingAsked(k.View());
    hide InvBut, Cached, Accounts, Shape, Resume, Settled, NothingDue, Answered;
    ResumeKeeps(k.View());
    forall b: nat | b < TASKS
      ensures Answered(Resume(k.View()), b, [])
    {
      ResumeAnswered(k.View(), b, []);
    }
    ResumeAccounts(k.View());
    ResumeTimers(k.View());
  }

  lemma NothingAsked(s: State)
    requires InvBut(s, TASKS) && s.sent == [] && s.handed == [] && s.timers == []
    requires forall t: nat :: t < TASKS ==> !s.tasks[t].delivering && !s.tasks[t].receiving
    ensures forall b: nat :: b < TASKS ==> Answered(s, b, [])
  {
    assert HandedTo([], 0) == [];
    hide InvBut, Shape;
  }

  lemma NothingSent(s: State)
    requires Shape(s) && s.sent == [] && s.handed == []
    requires forall t: nat :: t < TASKS ==> !s.tasks[t].sending && !s.tasks[t].delivering
    ensures Accounts(s)
  {
    forall a: nat, b: nat | a < TASKS && b < TASKS
      ensures Accounted(s, a, b)
    {
    }
  }

  /** Boot and any sequence of ticks and kernel calls of whichever task runs; calls while the idle task runs do not
      happen.  The kernel ends in the state that the task machine's run over these events leads to.  There the machine's
      invariant holds, the highest-priority task runs, the messages sent, handed over and asked for agree, at each step
      they are handed over first come, first served, and as long as the tick counter can not have wrapped, no sleeping
      task's time has come already. */
  method RunKernel(setups: seq<Setup>, events: seq<Event>) returns (k: Tasks, ghost first: State, ghost ran: seq<Event>)
    requires |setups| < TASKS && forall i :: 0 <= i < |setups| ==> setups[i].priority < PRIORITIES
    ensures Booted(first, setups) && Shape(first) && ran == Happening(first, events) && Runnable(first, ran)
    ensures k.Linked() && k.View() == Run(first, ran)
    ensures Settled(k.View()) && Accounts(k.View())
    ensures forall b: nat :: b < TASKS ==> Answered(k.View(), b, Asks(first, ran, b))
    ensures Ticks(events) + MAX_MS < WORD ==> NothingDue(k.View())
    ensures TaskOrder.Served(first, ran)
  {
    hide *;
    k := Boot(setups);
    first, ran := k.View(), [];
    SettledSorted(first);
    BootedInLine(first, setups);
    RunEnds(first, ran);
    NoTicks(events);
    assert events[0..] == events && ran + Happening(first, events) == Happening(first, events);
    for i := 0 to |events|
      invariant fresh(k) && k.Linked() && Settled(k.View()) && Shape(k.View()) && Accounts(k.View())
      invariant 0 <= k.current < TASKS && k.next >= 0
      invariant Runnable(first, ran) && k.View() == Run(first, ran)
      invariant Happening(first, events) == ran + Happening(k.View(), events[i..])
      invariant Ticks(events[..i]) + MAX_MS < WORD ==> NothingDue(k.View()) && k.View().clock <= Ticks(events[..i])
    {
      var e := events[i];
      TicksSoFar(events, i);
      k.ViewWhenRunning();
      EnabledIs(k.View(), e);
      HappeningNext(k.View(), events[i..], ran);
      assert events[i..][1..] == events[i + 1..];
      if e.Tick? || (k.current != IDLE && (!e.Sleep? || e.ms <= MAX_MS)) {
        StepAccounts(k.View(), e);
        RunOneMore(first, ran, e);
        if k.View().clock + TickOf(e) + MAX_MS < WORD && NothingDue(k.View()) {
          FarFromWrap(k.View(), e);
          StepDue(k.View(), e);
        }
        k.StepKernel(e);
        ran := ran + [e];
      }
    }
    HappenedAll(k.View(), events[|events|..], ran);
    TaskOrder.RunServed(first, ran);
    assert events[..|events|] == events;
    forall b: nat | b < TASKS
      ensures Answered(k.View(), b, Asks(first, ran, b))
    {
      RunAnswered(first, ran, b, []);
      assert [] + Asks(first, ran, b) == Asks(first, ran, b);
    }
  }

  lemma HappeningNext(s: State, es: seq<Event>, ran: seq<Event>)
    requires Shape(s) && es != []
    ensures Shape(Step(s, es[0]))
    ensures ran + Happening(s, es) ==
            if Enabled(s, es[0]) then ran + [es[0]] + Happening(Step(s, es[0]), es[1..]) else ran + Happening(s, es[1..])
  {
    StepShape(s, es[0]);
    hide Shape, Step, Enabled;
  }

  lemma HappenedAll(s: State, es: seq<Event>, ran: seq<Event>)
    requires Shape(s) && es == []
    ensures ran + Happening(s, es) == ran
  {
  }

  lemma NoTicks(es: seq<Event>)
    ensures Ticks(es[..0]) == 0
  {
  }

  lemma {:induction false} TicksSoFar(es: seq<Event>, i: nat)
    requires i < |es|
    ensures Ticks(es[..i + 1]) == Ticks(es[..i]) + TickOf(es[i])
  {
    if i > 0 {
      TicksSoFar(es[1..], i - 1);
      assert es[..i + 1][1..] == es[1..][..i] && es[..i][1..] == es[1..][..i - 1];
    }
  }

  lemma FarFromWrap(s: State, e: Event)
    requires s.clock + TickOf(e) + MAX_MS < WORD && Enabled(s, e)
    ensures NoWrap(s, e)
  {
  }

  lemma EnabledIs(s: State, e: Event)
    ensures Enabled(s, e) <==> e.Tick? || (s.current != IDLE && (!e.Sleep? || e.ms <= MAX_MS))
  {
  }
}
