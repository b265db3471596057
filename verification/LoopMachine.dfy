/**
 * All interleavings of submitters, `init`, `uninit` and the loop thread over one `LoopContext`
 * (unio/src/loop.cc). Only the thread holding the recursive mutex is inside a critical section, so
 * the mutex itself carries that thread's program counter; the drain's nested `addQueuedTask` is the
 * one recursive acquisition.
 */
module LoopMachine {
  import opened Prelude
  import opened LoopQueue

  const LOOP_THREAD: nat := 0

  /** Inside `addQueuedTask`: before the push, before the wake-up test, before the release. */
  datatype AddPc = Push | Signal | AddUnlock

  datatype InitPc = AsyncInit | SetData | Send | InitUnlock

  /** A task in progress: what it has still to do, and the submission it is in the middle of. */
  datatype Running = Running(task: Task, left: seq<Act>, adding: Option<(Task, AddPc)>)

  datatype Mutex =
    | Free
    | Adding(tid: nat, task: Task, addPc: AddPc)
    | Initing(initTid: nat, initPc: InitPc)
    | Draining(running: Option<Running>)

  datatype State = State(
    mutex: Mutex,
    loopWaiting: bool,        // the async callback has started and waits for the mutex
    queue: seq<Task>,
    submitted: seq<Task>,     // every push, in mutex order
    executed: seq<Task>,      // every finished task, in order
    initCalled: bool,
    typeSet: bool,            // queue_handle.type != 0
    wakePending: bool,
    closing: bool
  )

  const START: State := State(Free, false, [], [], [], false, false, false, false)

  datatype Label =
    | BeginAdd(tid: nat, task: Task) | AddStep
    | BeginInit(tid: nat) | InitStep
    | Fire | BeginDrain | Pop | TaskAct | TaskAddStep | TaskEnd | EndDrain
    | UninitOutside

  predicate Enabled(s: State, l: Label) {
    match l
    case BeginAdd(tid, _) => s.mutex.Free? && (tid == LOOP_THREAD ==> !s.loopWaiting)
    case AddStep => s.mutex.Adding?
    case BeginInit(tid) => s.mutex.Free? && !s.initCalled && (tid == LOOP_THREAD ==> !s.loopWaiting)
    case InitStep => s.mutex.Initing?
    // libuv runs the callback of an open async handle, on the loop thread, when that thread is idle
    case Fire => s.wakePending && s.typeSet && !s.closing && LoopIdle(s)
    case BeginDrain => s.loopWaiting && s.mutex.Free?
    case Pop => s.mutex.Draining? && s.mutex.running.None? && s.queue != []
    case TaskAct => Busy(s) && s.mutex.running.value.adding.None? && s.mutex.running.value.left != []
                    && (s.mutex.running.value.left[0].Uninit? ==> s.typeSet)
    case TaskAddStep => Busy(s) && s.mutex.running.value.adding.Some?
    case TaskEnd => Busy(s) && s.mutex.running.value.adding.None? && s.mutex.running.value.left == []
    case EndDrain => s.mutex.Draining? && s.mutex.running.None? && s.queue == []
    case UninitOutside => s.typeSet && LoopIdle(s)
  }

  predicate Busy(s: State) {
    s.mutex.Draining? && s.mutex.running.Some?
  }

  predicate LoopIdle(s: State) {
    && !s.loopWaiting && !s.mutex.Draining?
    && (s.mutex.Adding? ==> s.mutex.tid != LOOP_THREAD)
    && (s.mutex.Initing? ==> s.mutex.initTid != LOOP_THREAD)
  }

  /** One step of `addQueuedTask` other than the release. */
  function AddEffect(s: State, task: Task, pc: AddPc): State {
    match pc
    case Push => s.(queue := s.queue + [task], submitted := s.submitted + [task])
    case Signal => s.(wakePending := s.wakePending || s.typeSet)
    case AddUnlock => s
  }

  function NextAddPc(pc: AddPc): AddPc {
    if pc.Push? then Signal else AddUnlock
  }

  function Step(s: State, l: Label): State
    requires Enabled(s, l)
  {
    match l
    case BeginAdd(tid, t) => s.(mutex := Adding(tid, t, Push))
    case AddStep =>
      var m := s.mutex;
      AddEffect(s, m.task, m.addPc).(mutex := if m.addPc.AddUnlock? then Free else m.(addPc := NextAddPc(m.addPc)))
    case BeginInit(tid) => s.(mutex := Initing(tid, AsyncInit), initCalled := true)
    case InitStep =>
      (match s.mutex.initPc
       case AsyncInit => s.(typeSet := true, mutex := s.mutex.(initPc := SetData))
       case SetData => s.(mutex := s.mutex.(initPc := Send))
       case Send => s.(wakePending := true, mutex := s.mutex.(initPc := InitUnlock))
       case InitUnlock => s.(mutex := Free))
    case Fire => s.(wakePending := false, loopWaiting := true)
    case BeginDrain => s.(loopWaiting := false, mutex := Draining(None))
    case Pop =>
      s.(queue := s.queue[1..], mutex := Draining(Some(Running(s.queue[0], s.queue[0].acts, None))))
    case TaskAct =>
      var r := s.mutex.running.value;
      (match r.left[0]
       case Submit(t) => s.(mutex := Draining(Some(r.(left := r.left[1..], adding := Some((t, Push))))))
       case Uninit => s.(closing := true, mutex := Draining(Some(r.(left := r.left[1..])))))
    case TaskAddStep =>
      var r := s.mutex.running.value;
      var (t, pc) := r.adding.value;
      AddEffect(s, t, pc).(mutex :=
        Draining(Some(r.(adding := if pc.AddUnlock? then None else Some((t, NextAddPc(pc)))))))
    case TaskEnd =>
      s.(executed := s.executed + [s.mutex.running.value.task], mutex := Draining(None))
    case EndDrain => s.(mutex := Free)
    case UninitOutside => s.(closing := true)
  }

  predicate Valid(s: State, ls: seq<Label>)
    decreases ls
  {
    ls == [] || (Enabled(s, ls[0]) && Valid(Step(s, ls[0]), ls[1..]))
  }

  function Run(s: State, ls: seq<Label>): State
    requires Valid(s, ls)
    decreases ls
  {
    if ls == [] then s else Run(Step(s, ls[0]), ls[1..])
  }

  lemma {:induction false} RunAppend(s: State, a: seq<Label>, b: seq<Label>)
    requires Valid(s, a) && Valid(Run(s, a), b)
    ensures Valid(s, a + b) && Run(s, a + b) == Run(Run(s, a), b)
    decreases a
  {
    if a == [] {
      assert a + b == b;
    } else {
      RunAppend(Step(s, a[0]), a[1..], b);
      assert (a + b)[1..] == a[1..] + b;
    }
  }

  function InProgress(s: State): seq<Task> {
    if Busy(s) then [s.mutex.running.value.task] else []
  }

  /** Finished, then running, then queued: the submissions in the order the mutex admitted them. */
  predicate Fifo(s: State) {
    s.executed + InProgress(s) + s.queue == s.submitted
  }

  /** A wake-up is pending or somebody who will drain or signal is already inside. */
  predicate Woken(s: State) {
    || s.wakePending || s.loopWaiting || s.mutex.Draining?
    || (s.mutex.Adding? && s.mutex.addPc.Signal?)
    || (s.mutex.Initing? && (s.mutex.initPc.SetData? || s.mutex.initPc.Send?))
  }

  predicate NoLostWakeup(s: State) {
    s.typeSet && !s.closing && s.queue != [] ==> Woken(s)
  }

  predicate Inv(s: State) {
    && Fifo(s)
    && NoLostWakeup(s)
    && (s.typeSet <==> s.initCalled && !(s.mutex.Initing? && s.mutex.initPc.AsyncInit?))
    && (s.mutex.Initing? ==> s.initCalled)
    && (s.loopWaiting || s.mutex.Draining? ==> s.typeSet)
    && (s.loopWaiting ==> !s.closing && !s.mutex.Draining?)
  }

  lemma AddFifo(s: State, l: Label)
    requires Inv(s) && Enabled(s, l) && (l.AddStep? || l.TaskAddStep?)
    ensures Fifo(Step(s, l))
  {
    var t := Step(s, l);
    var (task, pc) := if l.AddStep? then (s.mutex.task, s.mutex.addPc) else s.mutex.running.value.adding.value;
    if pc.Push? {
      assert InProgress(t) == InProgress(s);
      assert t.executed + InProgress(t) + t.queue == (s.executed + InProgress(s) + s.queue) + [task];
    }
  }

  lemma DrainFifo(s: State, l: Label)
    requires Inv(s) && Enabled(s, l) && (l.Pop? || l.TaskEnd?)
    ensures Fifo(Step(s, l))
  {
    var t := Step(s, l);
    assert t.executed + InProgress(t) + t.queue == s.executed + InProgress(s) + s.queue;
  }

  lemma StepFifo(s: State, l: Label)
    requires Inv(s) && Enabled(s, l)
    ensures Fifo(Step(s, l))
  {
    if l.AddStep? || l.TaskAddStep? {
      AddFifo(s, l);
    } else if l.Pop? || l.TaskEnd? {
      DrainFifo(s, l);
    } else {
      assert InProgress(Step(s, l)) == InProgress(s);
    }
  }

  lemma StepInv(s: State, l: Label)
    requires Inv(s) && Enabled(s, l)
    ensures Inv(Step(s, l))
  {
    StepFifo(s, l);
  }

  /** FIFO order, no lost wake-up, in every state any interleaving reaches. */
  lemma {:induction false} ReachableInv(ls: seq<Label>)
    requires Valid(START, ls)
    ensures Fifo(Run(START, ls)) && NoLostWakeup(Run(START, ls)) && Inv(Run(START, ls))
  {
    RunInv(START, ls);
  }

  lemma {:induction false} RunInv(s: State, ls: seq<Label>)
    requires Inv(s) && Valid(s, ls)
    ensures Inv(Run(s, ls))
    decreases ls
  {
    if ls != [] {
      StepInv(s, ls[0]);
      RunInv(Step(s, ls[0]), ls[1..]);
    }
  }

  /** With the mutex free, work on an open loop is never left without a wake-up on its way. */
  lemma QuiescentWakeup(ls: seq<Label>)
    requires Valid(START, ls)
    ensures var s := Run(START, ls);
            s.mutex.Free? && s.typeSet && !s.closing && s.queue != [] ==> s.wakePending || s.loopWaiting
  {
    ReachableInv(ls);
  }

  /** A task runs at most once and never before an earlier submission: what ran is a prefix. */
  lemma ExecutedIsPrefix(ls: seq<Label>)
    requires Valid(START, ls)
    ensures Run(START, ls).executed <= Run(START, ls).submitted
  {
    ReachableInv(ls);
    var s := Run(START, ls);
    assert s.submitted[..|s.executed|] == s.executed;
  }

  /** A step that calls `uninit`, from outside a task or as what a running task does next. */
  predicate UninitsNow(s: State, l: Label)
    requires Enabled(s, l)
  {
    l.UninitOutside? || (l.TaskAct? && s.mutex.running.value.left[0] == Act.Uninit)
  }

  predicate Uninits(s: State, ls: seq<Label>)
    requires Valid(s, ls)
    decreases ls
  {
    ls != [] && (UninitsNow(s, ls[0]) || Uninits(Step(s, ls[0]), ls[1..]))
  }

  lemma ClosingStep(s: State, l: Label)
    requires Enabled(s, l)
    ensures Step(s, l).closing <==> s.closing || UninitsNow(s, l)
  {
    hide AddEffect;
    if l.AddStep? {
      AddKeepsClosing(s, s.mutex.task, s.mutex.addPc);
    } else if l.TaskAddStep? {
      AddKeepsClosing(s, s.mutex.running.value.adding.value.0, s.mutex.running.value.adding.value.1);
    }
  }

  lemma AddKeepsClosing(s: State, task: Task, pc: AddPc)
    ensures AddEffect(s, task, pc).closing == s.closing
  {
  }

  lemma {:induction false} ClosingFrom(s: State, ls: seq<Label>)
    requires Valid(s, ls)
    ensures Run(s, ls).closing <==> s.closing || Uninits(s, ls)
    decreases ls
  {
    hide Step, Enabled, UninitsNow;
    if ls != [] {
      ClosingStep(s, ls[0]);
      ClosingFrom(Step(s, ls[0]), ls[1..]);
    }
  }

  /** The async handle is closed exactly by the runs that call `uninit`. */
  lemma ClosingIff(ls: seq<Label>)
    requires Valid(START, ls)
    ensures Run(START, ls).closing <==> Uninits(START, ls)
  {
    ClosingFrom(START, ls);
  }

  /** Once the async handle is closed and no drain is in progress, nothing ever runs again. */
  predicate Sealed(s: State) {
    s.closing && !s.loopWaiting && !s.mutex.Draining?
  }

  lemma {:induction false} SealedForever(s: State, ls: seq<Label>)
    requires Sealed(s) && Valid(s, ls)
    ensures Sealed(Run(s, ls)) && Run(s, ls).executed == s.executed && s.submitted <= Run(s, ls).submitted
    decreases ls
  {
    if ls != [] {
      SealedForever(Step(s, ls[0]), ls[1..]);
    }
  }

  /**
   * Uninit completeness: when a drain releases the mutex after a task has called `uninit`, everything
   * submitted until then has run, and in every continuation the tasks that never run are exactly the
   * ones submitted later.
   */
  lemma UninitCompleteness(before: seq<Label>, after: seq<Label>)
    requires Valid(START, before + [EndDrain] + after)
    requires Valid(START, before) && Run(START, before).closing && Enabled(Run(START, before), EndDrain)
    ensures var k := |Run(START, before).submitted|;
            var last := Run(START, before + [EndDrain] + after);
            && last.executed == Run(START, before).submitted
            && k <= |last.submitted| && last.executed == last.submitted[..k]
            && !last.mutex.Draining?
  {
    var s := Run(START, before);
    ReachableInv(before);
    assert s.executed + [] + [] == s.executed;
    assert before + [EndDrain] + after == before + ([EndDrain] + after);
    SplitRun(START, before, [EndDrain] + after);
    var t := Step(s, EndDrain);
    assert ([EndDrain] + after)[1..] == after;
    SealedForever(t, after);
  }

  lemma Extend(ls: seq<Label>, l: Label)
    requires Valid(START, ls) && Enabled(Run(START, ls), l)
    ensures Valid(START, ls + [l]) && Run(START, ls + [l]) == Step(Run(START, ls), l)
  {
    hide Step, Enabled;
    var s := Run(START, ls);
    RunCons(s, l, []);
    assert [l] + [] == [l];
    RunAppend(START, ls, [l]);
  }

  const QUIT: Task := Task(0, [Act.Uninit])

  /** A task that calls `uninit` is submitted by another thread before the loop is initialised. */
  lemma SubmittedEarly() returns (ls: seq<Label>)
    ensures Valid(START, ls)
    ensures Run(START, ls) == START.(queue := [QUIT], submitted := [QUIT])
  {
    ls := [];
    Extend(ls, BeginAdd(1, QUIT));
    ls := ls + [BeginAdd(1, QUIT)];
    Extend(ls, AddStep);
    ls := ls + [AddStep];
    Extend(ls, AddStep);
    ls := ls + [AddStep];
    Extend(ls, AddStep);
    ls := ls + [AddStep];
  }

  /** The loop thread initialises the loop, which wakes it for what is queued already. */
  lemma Initialised() returns (ls: seq<Label>)
    ensures Valid(START, ls)
    ensures Run(START, ls) == START.(initCalled := true, typeSet := true, wakePending := true,
                                     queue := [QUIT], submitted := [QUIT])
  {
    ls := SubmittedEarly();
    Extend(ls, BeginInit(LOOP_THREAD));
    ls := ls + [BeginInit(LOOP_THREAD)];
    Extend(ls, InitStep);
    ls := ls + [InitStep];
    Extend(ls, InitStep);
    ls := ls + [InitStep];
    Extend(ls, InitStep);
    ls := ls + [InitStep];
    Extend(ls, InitStep);
    ls := ls + [InitStep];
  }

  /** ... and a drain has begun. */
  lemma QuitSubmitted() returns (ls: seq<Label>)
    ensures Valid(START, ls)
    ensures var s := Run(START, ls);
            && s.mutex == Draining(None) && s.typeSet && !s.closing
            && s.queue == [QUIT] && s.submitted == [QUIT] && s.executed == []
  {
    ls := Initialised();
    Extend(ls, Fire);
    ls := ls + [Fire];
    Extend(ls, BeginDrain);
    ls := ls + [BeginDrain];
  }

  /** ... the task has run, and the drain is about to release the mutex. */
  lemma QuitRan() returns (ls: seq<Label>)
    ensures Valid(START, ls)
    ensures var s := Run(START, ls);
            s.mutex == Draining(None) && s.closing && s.queue == [] && s.executed == [QUIT] && s.submitted == [QUIT]
  {
    ls := QuitSubmitted();
    Extend(ls, Pop);
    ls := ls + [Pop];
    Extend(ls, TaskAct);
    ls := ls + [TaskAct];
    Extend(ls, TaskEnd);
    ls := ls + [TaskEnd];
  }

  /**
   * The situation of `UninitCompleteness` arises: a queued task calls `uninit` and has run, its drain is
   * about to release the mutex, and a task submitted afterwards never runs.
   */
  lemma UninitReached() returns (before: seq<Label>, after: seq<Label>)
    ensures Valid(START, before) && Run(START, before).closing && Enabled(Run(START, before), EndDrain)
    ensures Valid(START, before + [EndDrain] + after)
    ensures Run(START, before).executed == [QUIT]
    ensures |Run(START, before + [EndDrain] + after).submitted| == 2
  {
    before := QuitRan();
    var ls := before;
    Extend(ls, EndDrain);
    ls := ls + [EndDrain];
    Extend(ls, BeginAdd(1, QUIT));
    ls := ls + [BeginAdd(1, QUIT)];
    Extend(ls, AddStep);
    ls := ls + [AddStep];
    after := [BeginAdd(1, QUIT), AddStep];
    assert before + [EndDrain] + after == ls;
  }

  lemma {:induction false} SplitRun(s: State, a: seq<Label>, b: seq<Label>)
    requires Valid(s, a + b)
    ensures Valid(s, a) && Valid(Run(s, a), b) && Run(s, a + b) == Run(Run(s, a), b)
    decreases a
  {
    if a == [] {
      assert a + b == b;
    } else {
      assert (a + b)[1..] == a[1..] + b;
      SplitRun(Step(s, a[0]), a[1..], b);
    }
  }

  /** The loop thread's own steps through one task with `acts` left to do. */
  function TaskSchedule(acts: seq<Act>): seq<Label> {
    if acts == [] then [TaskEnd]
    else [TaskAct] + (if acts[0].Submit? then [TaskAddStep, TaskAddStep, TaskAddStep] else [])
         + TaskSchedule(acts[1..])
  }

  /** ... and through a whole drain. */
  function DrainSchedule(q: seq<Task>): seq<Label>
    decreases ForestSize(q)
  {
    if q == [] then [EndDrain]
    else
      DrainStep([], q);
      [Pop] + TaskSchedule(q[0].acts) + DrainSchedule(q[1..] + Submitted(q[0].acts))
  }

  lemma RunCons(s: State, l: Label, rest: seq<Label>)
    requires Enabled(s, l) && Valid(Step(s, l), rest)
    ensures Valid(s, [l] + rest) && Run(s, [l] + rest) == Run(Step(s, l), rest)
  {
    assert ([l] + rest)[1..] == rest;
  }

  const SUBMIT_STEPS: seq<Label> := [TaskAct, TaskAddStep, TaskAddStep, TaskAddStep]

  /** A nested submission: push, signal, release, and on to the next act. */
  lemma SubmitSteps(s: State, t: Task)
    requires Busy(s) && s.typeSet && s.mutex.running.value.adding.None?
    requires s.mutex.running.value.left != [] && s.mutex.running.value.left[0] == Submit(t)
    ensures Valid(s, SUBMIT_STEPS)
    ensures var r := s.mutex.running.value;
            Run(s, SUBMIT_STEPS) == s.(queue := s.queue + [t], submitted := s.submitted + [t],
              wakePending := true, mutex := Draining(Some(r.(left := r.left[1..]))))
  {
    var t1 := Step(s, TaskAct);
    var t2 := Step(t1, TaskAddStep);
    var t3 := Step(t2, TaskAddStep);
    var t4 := Step(t3, TaskAddStep);
    RunCons(t3, TaskAddStep, []);
    RunCons(t2, TaskAddStep, [TaskAddStep]);
    assert [TaskAddStep] + [TaskAddStep] == [TaskAddStep, TaskAddStep];
    RunCons(t1, TaskAddStep, [TaskAddStep, TaskAddStep]);
    assert [TaskAddStep] + [TaskAddStep, TaskAddStep] == [TaskAddStep, TaskAddStep, TaskAddStep];
    RunCons(s, TaskAct, [TaskAddStep, TaskAddStep, TaskAddStep]);
    assert [TaskAct] + [TaskAddStep, TaskAddStep, TaskAddStep] == SUBMIT_STEPS;
    assert Run(t4, []) == t4;
  }

  lemma {:induction false} TaskScheduleRuns(s: State, acts: seq<Act>)
    requires Busy(s) && s.typeSet && s.mutex.running.value.left == acts && s.mutex.running.value.adding.None?
    ensures Valid(s, TaskSchedule(acts))
    ensures var t := Run(s, TaskSchedule(acts));
            && t.mutex == Draining(None) && t.typeSet
            && t.executed == s.executed + [s.mutex.running.value.task]
            && t.queue == s.queue + Submitted(acts)
            && t.closing == (s.closing || Act.Uninit in acts)
            && t.wakePending == (s.wakePending || Submitted(acts) != [])
    decreases acts
  {
    if acts == [] {
      hide Valid, Run, Enabled;
      assert Enabled(s, TaskEnd) by { EndEnabled(s); }
      NoSteps(Step(s, TaskEnd));
      RunCons(s, TaskEnd, []);
      assert [TaskEnd] + [] == TaskSchedule(acts);
      assert s.queue + [] == s.queue;
    } else if acts[0].Submit? {
      hide Step, Enabled, Valid, Run, Submitted, TaskSchedule;
      SubmitSteps(s, acts[0].task);
      var t := Run(s, SUBMIT_STEPS);
      TaskScheduleRuns(t, acts[1..]);
      RunAppend(s, SUBMIT_STEPS, TaskSchedule(acts[1..]));
      SubmitFirst(acts);
      assert Act.Uninit in acts <==> Act.Uninit in acts[1..] by { assert acts == [acts[0]] + acts[1..]; }
      Associative(s.queue, [acts[0].task], Submitted(acts[1..]));
    } else {
      hide Step, Enabled, Valid, Run;
      UninitStep(s);
      TaskScheduleRuns(Step(s, TaskAct), acts[1..]);
      RunCons(s, TaskAct, TaskSchedule(acts[1..]));
      assert TaskSchedule(acts) == [TaskAct] + TaskSchedule(acts[1..]);
      assert Submitted(acts) == Submitted(acts[1..]);
    }
  }

  lemma NoSteps(s: State)
    ensures Valid(s, []) && Run(s, []) == s
  {
  }

  lemma EndEnabled(s: State)
    requires Busy(s) && s.mutex.running.value.left == [] && s.mutex.running.value.adding.None?
    ensures Enabled(s, TaskEnd)
  {
  }

  lemma UninitStep(s: State)
    requires Busy(s) && s.typeSet && s.mutex.running.value.adding.None?
    requires s.mutex.running.value.left != [] && s.mutex.running.value.left[0].Uninit?
    ensures Enabled(s, TaskAct)
    ensures var r := s.mutex.running.value;
            Step(s, TaskAct) == s.(closing := true, mutex := Draining(Some(r.(left := r.left[1..]))))
  {
  }

  lemma SubmitFirst(acts: seq<Act>)
    requires acts != [] && acts[0].Submit?
    ensures TaskSchedule(acts) == SUBMIT_STEPS + TaskSchedule(acts[1..])
    ensures Submitted(acts) == [acts[0].task] + Submitted(acts[1..])
  {
    assert [TaskAct] + [TaskAddStep, TaskAddStep, TaskAddStep] == SUBMIT_STEPS;
  }

  function OneTask(t: Task): seq<Label> {
    [Pop] + TaskSchedule(t.acts)
  }

  lemma OneTaskRuns(s: State)
    requires s.mutex == Draining(None) && s.typeSet && s.queue != []
    ensures Valid(s, OneTask(s.queue[0]))
    ensures var t := Run(s, OneTask(s.queue[0]));
            && t.mutex == Draining(None) && t.typeSet
            && t.executed == s.executed + [s.queue[0]]
            && t.queue == s.queue[1..] + Submitted(s.queue[0].acts)
            && t.closing == (s.closing || Act.Uninit in s.queue[0].acts)
            && t.wakePending == (s.wakePending || Submitted(s.queue[0].acts) != [])
  {
    var acts := s.queue[0].acts;
    TaskScheduleRuns(Step(s, Pop), acts);
    RunCons(s, Pop, TaskSchedule(acts));
  }

  lemma LevelOrderPop(q: seq<Task>)
    requires q != []
    ensures LevelOrder(q) == [q[0]] + LevelOrder(q[1..] + Submitted(q[0].acts))
    ensures DrainSchedule(q) == OneTask(q[0]) + DrainSchedule(q[1..] + Submitted(q[0].acts))
    ensures ForestSize(q[1..] + Submitted(q[0].acts)) < ForestSize(q)
  {
    DrainStep([], q);
    DrainIsLevelOrder(q);
    DrainIsLevelOrder(q[1..] + Submitted(q[0].acts));
  }

  /**
   * A drain left to itself empties the queue and runs the level-order traversal of it; it leaves the
   * handle closed if one of those tasks called `uninit`, and a wake-up pending if one of them submitted.
   */
  lemma {:induction false} DrainCompletes(s: State)
    requires s.mutex == Draining(None) && s.typeSet
    ensures Valid(s, DrainSchedule(s.queue))
    ensures Drained(s, Run(s, DrainSchedule(s.queue)))
    decreases ForestSize(s.queue)
  {
    var q := s.queue;
    if q == [] {
      RunCons(s, EndDrain, []);
      assert [EndDrain] + [] == DrainSchedule(q);
      assert s.executed + [] == s.executed;
    } else {
      hide LevelOrder, DrainSchedule, OneTask, Step, Enabled, Valid, Run, Submitted;
      OneTaskRuns(s);
      LevelOrderPop(q);
      var t := Run(s, OneTask(q[0]));
      DrainCompletes(t);
      RunAppend(s, OneTask(q[0]), DrainSchedule(t.queue));
      Associative(s.executed, [q[0]], LevelOrder(t.queue));
      ClosesCons(q[0], LevelOrder(t.queue));
    }
  }

  lemma ClosesCons(t: Task, rest: seq<Task>)
    ensures Closes([t] + rest) <==> Act.Uninit in t.acts || Closes(rest)
    ensures Submits([t] + rest) <==> Submitted(t.acts) != [] || Submits(rest)
  {
    var all := [t] + rest;
    forall i | 0 <= i < |rest| ensures all[i + 1] == rest[i] {}
    if Closes(rest) {
      var i :| 0 <= i < |rest| && Act.Uninit in rest[i].acts;
      assert Act.Uninit in all[i + 1].acts;
    }
    if Act.Uninit in t.acts {
      assert Act.Uninit in all[0].acts;
    }
    if Submits(rest) {
      var i :| 0 <= i < |rest| && Submitted(rest[i].acts) != [];
      assert Submitted(all[i + 1].acts) != [];
    }
    if Submitted(t.acts) != [] {
      assert Submitted(all[0].acts) != [];
    }
  }

  predicate Drained(s: State, t: State) {
    && t.mutex.Free? && t.queue == [] && t.executed == s.executed + LevelOrder(s.queue)
    && t.closing == (s.closing || Closes(LevelOrder(s.queue)))
    && t.wakePending == (s.wakePending || Submits(LevelOrder(s.queue)))
  }

  /** From a free mutex to the head of a drain: the wake-up that is on its way, then the mutex. */
  lemma WakeRuns(s: State) returns (wake: seq<Label>)
    requires Inv(s) && s.mutex.Free? && s.typeSet && !s.closing && s.queue != []
    ensures Valid(s, wake)
    ensures var t := Run(s, wake);
            && t.mutex == Draining(None) && t.typeSet && t.queue == s.queue && t.executed == s.executed
            && t.closing == s.closing && (!s.loopWaiting ==> !t.wakePending)
    ensures forall i :: 0 <= i < |wake| ==> wake[i] in {Fire, BeginDrain}
  {
    var w := if s.loopWaiting then s else Step(s, Fire);
    RunCons(w, BeginDrain, []);
    wake := [BeginDrain];
    assert [BeginDrain] + [] == [BeginDrain];
    assert Run(w, wake) == Step(w, BeginDrain);
    if !s.loopWaiting {
      RunCons(s, Fire, [BeginDrain]);
      wake := [Fire] + [BeginDrain];
    }
  }

  /**
   * No task is stranded: from every reachable state with the mutex free, the handle initialised and
   * not closed, the loop thread alone can go on to run everything that has been submitted.
   */
  lemma NoTaskStranded(ls: seq<Label>) returns (more: seq<Label>)
    requires Valid(START, ls)
    requires var s := Run(START, ls); s.mutex.Free? && s.typeSet && !s.closing
    ensures Valid(Run(START, ls), more)
    ensures var t := Run(Run(START, ls), more);
            t.queue == [] && t.mutex.Free? && Run(START, ls).submitted <= t.executed
    ensures forall i :: 0 <= i < |more| ==>
              more[i] in {Fire, BeginDrain, Pop, TaskAct, TaskAddStep, TaskEnd, EndDrain}
  {
    var s := Run(START, ls);
    ReachableInv(ls);
    assert s.executed + [] + s.queue == s.executed + s.queue;
    assert s.executed + s.queue == s.submitted;
    if s.queue == [] {
      assert s.executed + [] == s.executed;
      return [];
    }
    var wake := WakeRuns(s);
    var t := Run(s, wake);
    DrainCompletes(t);
    RunAppend(s, wake, DrainSchedule(s.queue));
    ScheduleLabels(s.queue);
    more := wake + DrainSchedule(s.queue);
    QueuePrefix(s.executed, s.queue);
  }

  lemma QueuePrefix(executed: seq<Task>, q: seq<Task>)
    ensures executed + q <= executed + LevelOrder(q)
  {
    DrainIsLevelOrder(q);
    assert executed + (q + DrainOrder(Children(q))) == (executed + q) + DrainOrder(Children(q));
  }

  lemma {:induction false} ScheduleLabels(q: seq<Task>)
    ensures forall i :: 0 <= i < |DrainSchedule(q)| ==>
              DrainSchedule(q)[i] in {Pop, TaskAct, TaskAddStep, TaskEnd, EndDrain}
    decreases ForestSize(q)
  {
    if q != [] {
      DrainStep([], q);
      TaskLabels(q[0].acts);
      ScheduleLabels(q[1..] + Submitted(q[0].acts));
    }
  }

  lemma {:induction false} TaskLabels(acts: seq<Act>)
    ensures forall i :: 0 <= i < |TaskSchedule(acts)| ==>
              TaskSchedule(acts)[i] in {TaskAct, TaskAddStep, TaskEnd}
  {
    if acts != [] {
      TaskLabels(acts[1..]);
    }
  }
}
