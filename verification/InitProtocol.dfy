/**
 * Telling InitEvent listeners (unio/inc/jcu-unio/emitter.h, unio/inc/jcu-unio/handle.h,
 * unio/src/handle.cc): a listener may register before, during or after initialisation and from any
 * thread. Early ones wait in the handler list; late ones go through the loop's queue, which costs the
 * loop mutex while the init mutex is held.
 *
 * Steps are single actions between mutex operations. Premises: InitEvent callbacks neither register
 * InitEvent nor call `init` on the same handle, and nobody removes InitEvent listeners.
 */
module InitProtocol {
  import opened Prelude

  const LOOP_THREAD: nat := 0

  datatype Listener = Listener(id: nat, once: bool)

  /** What sits on the loop's queue. `RegisterTask` and `InitTask` are tasks that take the init mutex. */
  datatype QueuedTask = InitTask | RegisterTask(once: bool) | Deliver(id: nat) | OtherTask

  /** Program counter of the thread holding the init mutex. */
  datatype Pc =
    | RegCheck(l: Listener) | ListPush(l: Listener)
    | WantLoop(l: Listener) | QueuePush(l: Listener) | LoopUnlock | RegUnlock
    | InitCheck | UvInit | Emitting | SetInited | SetEvent | InitUnlock

  datatype InitMutex = IFree | IHeld(tid: nat, pc: Pc)

  datatype DrainPc = AtCheck | AwaitInitMutex(task: QueuedTask) | InsideInitMutex | Delivering(id: nat)

  /** Recursive: a drain's own task pushes while the drain holds it. */
  datatype LoopMutex = LFree | LPushing(tid: nat) | LDraining(dpc: DrainPc)

  datatype State = State(
    im: InitMutex,
    lm: LoopMutex,
    inited: bool,
    initEvent: Option<int>,        // init_event_, by its status
    handlers: seq<Listener>,
    cursor: nat,                   // the dispatch iterator
    dispatched: bool,              // emit<InitEvent> has finished
    queue: seq<QueuedTask>,
    delivered: seq<(nat, int)>,    // listener and the status it was shown
    next: nat,                     // listeners so far
    payload: Option<int>,          // the status `_init` obtained
    uvInits: nat
  )

  const START: State := State(IFree, LFree, false, None, [], 0, false, [], [], 0, None, 0)

  datatype Label =
    | BeginRegister(tid: nat, once: bool)
    | BeginInit(tid: nat)
    | HolderStep(rc: int)          // the init mutex holder's next action; `rc` answers uv_tcp_init
    | Post(task: QueuedTask)
    | BeginDrain | DrainPop | DrainAcquire | DrainDeliver | EndDrain

  predicate LoopThreadFree(s: State) {
    !s.lm.LDraining? && !(s.im.IHeld? && s.im.tid == LOOP_THREAD)
  }

  predicate Enabled(s: State, l: Label) {
    match l
    case BeginRegister(tid, _) => s.im.IFree? && (tid == LOOP_THREAD ==> LoopThreadFree(s))
    case BeginInit(tid) => s.im.IFree? && (tid == LOOP_THREAD ==> LoopThreadFree(s))
    case HolderStep(_) => s.im.IHeld? && (s.im.pc.WantLoop? ==> CanTakeLoop(s))
    // from outside, or by the loop's own task, which holds the recursive mutex already
    case Post(task) => (s.lm.LFree? || s.lm == LDraining(AtCheck)) && !task.Deliver?
    case BeginDrain => s.lm.LFree? && LoopThreadFree(s)
    case DrainPop => s.lm == LDraining(AtCheck) && s.queue != []
    case DrainAcquire => s.lm.LDraining? && s.lm.dpc.AwaitInitMutex? && s.im.IFree?
    case DrainDeliver => s.lm.LDraining? && s.lm.dpc.Delivering? && s.initEvent.Some?
    case EndDrain => s.lm == LDraining(AtCheck) && s.queue == []
  }

  predicate CanTakeLoop(s: State)
    requires s.im.IHeld?
  {
    s.lm.LFree? || (s.lm.LDraining? && s.im.tid == LOOP_THREAD)
  }

  function At(s: State, pc: Pc): State
    requires s.im.IHeld?
  {
    s.(im := s.im.(pc := pc))
  }

  /** Releasing the init mutex; inside a drain's task, the drain goes on. */
  function Release(s: State): State {
    s.(im := IFree, lm := if s.lm == LDraining(InsideInitMutex) then LDraining(AtCheck) else s.lm)
  }

  /** The registrar's actions. */
  function RegisterAction(s: State): State
    requires s.im.IHeld? && (s.im.pc.WantLoop? ==> CanTakeLoop(s))
  {
    match s.im.pc
    case RegCheck(l) => At(s, if s.inited then WantLoop(l) else ListPush(l))
    case ListPush(l) => At(s, RegUnlock).(handlers := s.handlers + [l])
    case WantLoop(l) => At(s, QueuePush(l)).(lm := if s.lm.LFree? then LPushing(s.im.tid) else s.lm)
    case QueuePush(l) => At(s, LoopUnlock).(queue := s.queue + [Deliver(l.id)])
    case LoopUnlock => At(s, RegUnlock).(lm := if s.lm.LPushing? then LFree else s.lm)
    case _ => Release(s)
  }

  /** One turn of `Handler::call`, or its end. */
  function EmitAction(s: State): State
    requires s.im.IHeld?
  {
    if s.cursor < |s.handlers| && s.payload.Some? then
      var h := s.handlers[s.cursor];
      var t := s.(delivered := s.delivered + [(h.id, s.payload.value)]);
      if h.once then t.(handlers := s.handlers[..s.cursor] + s.handlers[s.cursor + 1..])
      else t.(cursor := s.cursor + 1)
    else At(s, SetInited).(dispatched := true)
  }

  /** The actions of `init`. */
  function InitAction(s: State, rc: int): State
    requires s.im.IHeld?
  {
    match s.im.pc
    case InitCheck => At(s, if s.inited then InitUnlock else UvInit)
    case UvInit => At(s, Emitting).(payload := Some(rc), uvInits := s.uvInits + 1)
    case Emitting => EmitAction(s)
    case SetInited => At(s, SetEvent).(inited := true)
    case SetEvent => At(s, InitUnlock).(initEvent := s.payload)
    case _ => Release(s)
  }

  predicate OfInit(pc: Pc) {
    pc.InitCheck? || pc.UvInit? || pc.Emitting? || pc.SetInited? || pc.SetEvent? || pc.InitUnlock?
  }

  function Holder(s: State, rc: int): State
    requires Enabled(s, HolderStep(rc))
  {
    if OfInit(s.im.pc) then InitAction(s, rc) else RegisterAction(s)
  }

  function Step(s: State, l: Label): State
    requires Enabled(s, l)
  {
    match l
    case BeginRegister(tid, once) => s.(im := IHeld(tid, RegCheck(Listener(s.next, once))), next := s.next + 1)
    case BeginInit(tid) => s.(im := IHeld(tid, InitCheck))
    case HolderStep(rc) => Holder(s, rc)
    case Post(task) => s.(queue := s.queue + [task])
    case BeginDrain => s.(lm := LDraining(AtCheck))
    case DrainPop =>
      var t := s.(queue := s.queue[1..]);
      (match s.queue[0]
       case Deliver(id) => t.(lm := LDraining(Delivering(id)))
       case OtherTask => t
       case task => t.(lm := LDraining(AwaitInitMutex(task))))
    case DrainAcquire =>
      var t := s.(lm := LDraining(InsideInitMutex));
      if s.lm.dpc.task.RegisterTask? then
        t.(im := IHeld(LOOP_THREAD, RegCheck(Listener(s.next, s.lm.dpc.task.once))), next := s.next + 1)
      else t.(im := IHeld(LOOP_THREAD, InitCheck))
    case DrainDeliver =>
      s.(delivered := s.delivered + [(s.lm.dpc.id, s.initEvent.value)], lm := LDraining(AtCheck))
    case EndDrain => s.(lm := LFree)
  }

  predicate Valid(s: State, ls: seq<Label>)
    decreases ls
  {
    ls == [] || (Enabled(s, ls[0]) && Valid(Step(s, ls[0]), ls[1..]))
  }

  function Run(s: State, ls: seq<Label>): State
    requires Valid(s, ls)
    decreases ls
  {
    if ls == [] then s else Run(Step(s, ls[0]), ls[1..])
  }

  // ---- where a listener can be: how often each place holds `id` ----

  function InList(hs: seq<Listener>, id: nat): nat {
    if hs == [] then 0 else One(hs[0].id == id) + InList(hs[1..], id)
  }

  function InQueue(q: seq<QueuedTask>, id: nat): nat {
    if q == [] then 0 else One(q[0] == Deliver(id)) + InQueue(q[1..], id)
  }

  function Told(d: seq<(nat, int)>, id: nat): nat {
    if d == [] then 0 else One(d[0].0 == id) + Told(d[1..], id)
  }

  /** Held by the thread registering it, not yet placed anywhere. */
  function InHand(s: State, id: nat): nat {
    One(s.im.IHeld? && (s.im.pc.RegCheck? || s.im.pc.ListPush? || s.im.pc.WantLoop? || s.im.pc.QueuePush?)
        && s.im.pc.l.id == id)
  }

  /** In the handler list and not yet reached by the one dispatch. */
  function Waiting(s: State, id: nat): nat {
    if s.dispatched || s.cursor > |s.handlers| then 0 else InList(s.handlers[s.cursor..], id)
  }

  function OnLoop(s: State, id: nat): nat {
    InQueue(s.queue, id) + One(s.lm == LDraining(Delivering(id)))
  }

  function Places(s: State, id: nat): nat {
    InHand(s, id) + Waiting(s, id) + OnLoop(s, id) + Told(s.delivered, id)
  }

  /** Every listener so far is in exactly one place, once. */
  ghost predicate OnePlace(s: State) {
    forall id: nat :: Places(s, id) == One(id < s.next)
  }

  predicate HasDeliver(q: seq<QueuedTask>) {
    exists i :: 0 <= i < |q| && q[i].Deliver?
  }

  /** The init side: what has been decided where, and by which point of the critical section. */
  predicate InitControl(s: State) {
    && (s.dispatched ==> s.payload.Some?)
    && (s.inited ==> s.dispatched)
    && s.uvInits == (if s.payload.Some? then 1 else 0)
    && s.cursor <= |s.handlers|
    && (s.payload.None? ==> s.cursor == 0)
    && (s.im.IHeld? ==> PcFacts(s, s.im.pc))
    && (!MidInit(s) ==> (s.payload.Some? ==> s.inited) && (s.inited ==> s.initEvent == s.payload))
    && (s.initEvent.Some? ==> s.initEvent == s.payload)
  }

  /** Between obtaining the status and storing it. */
  predicate MidInit(s: State) {
    s.im.IHeld? && (s.im.pc.Emitting? || s.im.pc.SetInited? || s.im.pc.SetEvent?)
  }

  predicate Pushing(s: State) {
    s.im.IHeld? && (s.im.pc.QueuePush? || s.im.pc.LoopUnlock?)
  }

  /** The loop side: who holds the loop mutex and why. */
  predicate LoopControl(s: State) {
    && (s.lm.LPushing? <==> Pushing(s) && !s.lm.LDraining?)
    && (s.lm.LDraining? ==> (s.lm.dpc.InsideInitMutex? <==> s.im.IHeld? && s.im.tid == LOOP_THREAD))
    && (s.lm.LDraining? && s.lm.dpc.AwaitInitMutex? ==> s.lm.dpc.task.InitTask? || s.lm.dpc.task.RegisterTask?)
    && (s.lm.LDraining? && Pushing(s) ==> s.im.tid == LOOP_THREAD)
    && (HasDeliver(s.queue) ==> s.initEvent.Some?)
    && (s.lm.LDraining? && s.lm.dpc.Delivering? ==> s.initEvent.Some?)
  }

  predicate Control(s: State) {
    InitControl(s) && LoopControl(s)
  }

  predicate PcFacts(s: State, pc: Pc) {
    match pc
    case ListPush(_) => !s.inited
    case WantLoop(_) => s.inited
    case QueuePush(_) => s.inited
    case LoopUnlock => s.inited
    case UvInit => s.payload.None?
    case Emitting => s.payload.Some? && !s.dispatched && !s.inited
    case SetInited => s.payload.Some? && s.dispatched && !s.inited
    case SetEvent => s.payload.Some? && s.inited
    case InitUnlock => s.inited
    case _ => true
  }

  /** Everybody is shown the status of the one initialisation. */
  predicate SamePayload(s: State) {
    forall i :: 0 <= i < |s.delivered| ==> s.payload == Some(s.delivered[i].1)
  }

  /** The dispatch leaves no once-listener behind it, and leaves nobody out. */
  predicate OnceErased(s: State) {
    && (forall i :: 0 <= i < s.cursor && i < |s.handlers| ==> !s.handlers[i].once)
    && (s.dispatched ==> s.cursor == |s.handlers|)
  }

  ghost predicate Inv(s: State) {
    Control(s) && SamePayload(s) && OnePlace(s) && OnceErased(s)
  }

  // ---- bookkeeping ----

  lemma {:induction false} ListSnoc(hs: seq<Listener>, h: Listener, id: nat)
    ensures InList(hs + [h], id) == InList(hs, id) + One(h.id == id)
  {
    if hs == [] {
      assert (hs + [h])[1..] == [];
    } else {
      ListSnoc(hs[1..], h, id);
      assert (hs + [h])[1..] == hs[1..] + [h];
    }
  }

  lemma {:induction false} QueueSnoc(q: seq<QueuedTask>, t: QueuedTask, id: nat)
    ensures InQueue(q + [t], id) == InQueue(q, id) + One(t == Deliver(id))
  {
    if q == [] {
      assert (q + [t])[1..] == [];
    } else {
      QueueSnoc(q[1..], t, id);
      assert (q + [t])[1..] == q[1..] + [t];
    }
  }

  lemma {:induction false} ToldSnoc(d: seq<(nat, int)>, e: (nat, int), id: nat)
    ensures Told(d + [e], id) == Told(d, id) + One(e.0 == id)
  {
    if d == [] {
      assert (d + [e])[1..] == [];
    } else {
      ToldSnoc(d[1..], e, id);
      assert (d + [e])[1..] == d[1..] + [e];
    }
  }

  /** Whether the step brings a new listener into the protocol. */
  predicate Registering(s: State, l: Label)
    requires Enabled(s, l)
  {
    l.BeginRegister? || (l.DrainAcquire? && s.lm.dpc.task.RegisterTask?)
  }

  lemma QueuePlaces(s: State, l: Label, id: nat)
    requires Enabled(s, l) && (l.Post? || l.DrainPop? || l.DrainDeliver?)
    ensures Places(Step(s, l), id) == Places(s, id)
  {
    if l.Post? {
      QueueSnoc(s.queue, l.task, id);
    } else if l.DrainDeliver? {
      ToldSnoc(s.delivered, (s.lm.dpc.id, s.initEvent.value), id);
    }
  }

  lemma PushPlaces(s: State, rc: int, id: nat)
    requires Control(s) && Enabled(s, HolderStep(rc)) && (s.im.pc.ListPush? || s.im.pc.QueuePush?)
    ensures Places(Holder(s, rc), id) == Places(s, id)
  {
    var l := s.im.pc.l;
    if s.im.pc.ListPush? {
      ListSnoc(s.handlers[s.cursor..], l, id);
      assert (s.handlers + [l])[s.cursor..] == s.handlers[s.cursor..] + [l];
    } else {
      QueueSnoc(s.queue, Deliver(l.id), id);
    }
  }

  /** One turn of telling the waiting listeners, as the list and the log of tellings see it. */
  lemma TellOne(told: seq<(nat, int)>, list: seq<Listener>, it: nat, rc: int, id: nat)
    requires it < |list|
    ensures var l := list[it];
            var (after, next) := if l.once then (list[..it] + list[it + 1..], it) else (list, it + 1);
            && after[next..] == list[it + 1..]
            && Told(told + [(l.id, rc)], id) + InList(after[next..], id)
               == Told(told, id) + InList(list[it..], id)
  {
    ToldSnoc(told, (list[it].id, rc), id);
    assert list[it..][1..] == list[it + 1..];
    assert list[it].once ==> (list[..it] + list[it + 1..])[it..] == list[it + 1..];
  }

  lemma EmitPlaces(s: State, rc: int, id: nat)
    requires Control(s) && Enabled(s, HolderStep(rc)) && s.im.pc.Emitting? && s.cursor < |s.handlers|
    ensures Places(Holder(s, rc), id) == Places(s, id)
  {
    TellOne(s.delivered, s.handlers, s.cursor, s.payload.value, id);
  }

  lemma HolderPlaces(s: State, rc: int, id: nat)
    requires Control(s) && Enabled(s, HolderStep(rc))
    ensures Places(Holder(s, rc), id) == Places(s, id)
  {
    if s.im.pc.ListPush? || s.im.pc.QueuePush? {
      PushPlaces(s, rc, id);
    } else if s.im.pc.Emitting? && s.cursor < |s.handlers| {
      EmitPlaces(s, rc, id);
    } else {
      assert s.im.pc.Emitting? ==> s.handlers[s.cursor..] == [];
    }
  }

  /** Every step but a new registration moves listeners from one place to another. */
  lemma PlacesStep(s: State, l: Label, id: nat)
    requires Control(s) && Enabled(s, l)
    ensures Places(Step(s, l), id) == Places(s, id) + One(Registering(s, l) && id == s.next)
  {
    if l.HolderStep? {
      HolderPlaces(s, l.rc, id);
    } else if l.Post? || l.DrainPop? || l.DrainDeliver? {
      QueuePlaces(s, l, id);
    }
  }

  lemma HolderInitControl(s: State, rc: int)
    requires Control(s) && Enabled(s, HolderStep(rc))
    ensures InitControl(Holder(s, rc))
  {
  }

  lemma HolderLoopControl(s: State, rc: int)
    requires Control(s) && Enabled(s, HolderStep(rc))
    ensures LoopControl(Holder(s, rc))
  {
    var t := Holder(s, rc);
    if !s.im.pc.QueuePush? {
      assert t.queue == s.queue;
      assert s.initEvent.Some? ==> t.initEvent.Some?;
    }
  }

  lemma OtherInitControl(s: State, l: Label)
    requires Control(s) && Enabled(s, l) && !l.HolderStep?
    ensures InitControl(Step(s, l))
  {
  }

  lemma OtherLoopControl(s: State, l: Label)
    requires Control(s) && Enabled(s, l) && !l.HolderStep?
    ensures LoopControl(Step(s, l))
  {
    var t := Step(s, l);
    if l.DrainPop? {
      forall i | 0 <= i < |t.queue| ensures t.queue[i] == s.queue[i + 1] {}
      assert s.queue[0].Deliver? ==> HasDeliver(s.queue);
    } else if !l.Post? {
      assert t.queue == s.queue;
    }
    assert HasDeliver(t.queue) ==> HasDeliver(s.queue);
  }

  lemma StepSamePayload(s: State, l: Label)
    requires Control(s) && SamePayload(s) && Enabled(s, l)
    ensures SamePayload(Step(s, l))
  {
    var t := Step(s, l);
    forall i | 0 <= i < |t.delivered| ensures t.payload == Some(t.delivered[i].1) {
      if i < |s.delivered| {
        assert t.delivered[i] == s.delivered[i];
      }
    }
  }

  lemma StepOnePlace(s: State, l: Label)
    requires Control(s) && OnePlace(s) && Enabled(s, l)
    ensures OnePlace(Step(s, l))
  {
    var t := Step(s, l);
    assert t.next == s.next + One(Registering(s, l));
    forall id: nat ensures Places(t, id) == One(id < t.next) {
      PlacesStep(s, l, id);
      assert Places(s, id) == One(id < s.next);
    }
  }

  lemma StepOnceErased(s: State, l: Label)
    requires Control(s) && OnceErased(s) && Enabled(s, l)
    ensures OnceErased(Step(s, l))
  {
    hide RegisterAction;
    if l.HolderStep? && !OfInit(s.im.pc) {
      RegisterKeepsErased(s);
    }
  }

  lemma RegisterKeepsErased(s: State)
    requires Control(s) && OnceErased(s) && s.im.IHeld? && !OfInit(s.im.pc) && (s.im.pc.WantLoop? ==> CanTakeLoop(s))
    ensures OnceErased(RegisterAction(s))
  {
  }

  lemma StepInv(s: State, l: Label)
    requires Inv(s) && Enabled(s, l)
    ensures Inv(Step(s, l))
  {
    if l.HolderStep? {
      HolderInitControl(s, l.rc);
      HolderLoopControl(s, l.rc);
    } else {
      OtherInitControl(s, l);
      OtherLoopControl(s, l);
    }
    StepSamePayload(s, l);
    StepOnePlace(s, l);
    StepOnceErased(s, l);
  }

  lemma {:induction false} RunInv(s: State, ls: seq<Label>)
    requires Inv(s) && Valid(s, ls)
    ensures Inv(Run(s, ls))
    decreases ls
  {
    if ls != [] {
      StepInv(s, ls[0]);
      RunInv(Step(s, ls[0]), ls[1..]);
    }
  }

  lemma StartInv()
    ensures Inv(START)
  {
    forall id: nat ensures Places(START, id) == 0 {}
  }

  /**
   * In every state of every interleaving a registered listener is in exactly one of: its registrar's
   * hand, the handler list, the loop, delivered; it is delivered at most once, all deliveries carry
   * the status of the one initialisation, and the uv handle is initialised at most once.
   */
  lemma ExactlyOnePlace(ls: seq<Label>, id: nat)
    requires Valid(START, ls)
    ensures var s := Run(START, ls);
            && InHand(s, id) + Waiting(s, id) + OnLoop(s, id) + Told(s.delivered, id)
               == (if id < s.next then 1 else 0)
            && SamePayload(s)
            && s.uvInits <= 1
            && (s.dispatched ==> forall i :: 0 <= i < |s.handlers| ==> !s.handlers[i].once)
  {
    StartInv();
    RunInv(START, ls);
    assert Places(Run(START, ls), id) == One(id < Run(START, ls).next);
  }

  /** Once init has run, no registration is under way and the loop has drained, everyone has been told. */
  lemma AllTold(ls: seq<Label>, id: nat)
    requires Valid(START, ls)
    requires var s := Run(START, ls); s.inited && s.im.IFree? && s.lm.LFree? && s.queue == []
    ensures id < Run(START, ls).next ==> Told(Run(START, ls).delivered, id) == 1
  {
    ExactlyOnePlace(ls, id);
    StartInv();
    RunInv(START, ls);
  }

  // ---- the status everybody is told ----

  /** What `uv_tcp_init` answered in a run: the `rc` of the step taken there, if there was one. */
  function InitAnswer(s: State, ls: seq<Label>): Option<int>
    requires Valid(s, ls)
    decreases ls
  {
    if ls == [] then None
    else if ls[0].HolderStep? && s.im.pc.UvInit? then Some(ls[0].rc)
    else InitAnswer(Step(s, ls[0]), ls[1..])
  }

  /** The answer is stored when it comes, and nothing overwrites it. */
  lemma AnswerStep(s: State, l: Label)
    requires Control(s) && Enabled(s, l)
    ensures Step(s, l).payload == if l.HolderStep? && s.im.pc.UvInit? then Some(l.rc) else s.payload
    ensures l.HolderStep? && s.im.pc.UvInit? ==> s.payload == None
  {
  }

  lemma {:induction false} AnswerRun(s: State, ls: seq<Label>)
    requires Inv(s) && Valid(s, ls)
    ensures Run(s, ls).payload == if s.payload.Some? then s.payload else InitAnswer(s, ls)
    decreases ls
  {
    hide Step, Enabled, Inv;
    if ls != [] {
      assert Control(s) by { InvControl(s); }
      AnswerStep(s, ls[0]);
      StepInv(s, ls[0]);
      AnswerRun(Step(s, ls[0]), ls[1..]);
    }
  }

  lemma InvControl(s: State)
    requires Inv(s)
    ensures Control(s) && SamePayload(s)
  {
  }

  /** Every listener of every run, early or late, is told what `uv_tcp_init` answered, and late ones read it. */
  lemma ToldTheAnswer(ls: seq<Label>, i: nat)
    requires Valid(START, ls)
    ensures var s := Run(START, ls);
            && s.payload == InitAnswer(START, ls)
            && (i < |s.delivered| ==> InitAnswer(START, ls) == Some(s.delivered[i].1))
            && (s.initEvent.Some? ==> s.initEvent == InitAnswer(START, ls))
  {
    StartInv();
    RunInv(START, ls);
    AnswerRun(START, ls);
    InvControl(Run(START, ls));
  }

  // ---- on and once ----

  /** The listeners a run brings in, by how they were registered: `true` for `once`. */
  function Asked(s: State, ls: seq<Label>): seq<bool>
    requires Valid(s, ls)
    decreases ls
  {
    if ls == [] then [] else AskedNow(s, ls[0]) + Asked(Step(s, ls[0]), ls[1..])
  }

  function AskedNow(s: State, l: Label): seq<bool>
    requires Enabled(s, l)
  {
    if l.BeginRegister? then [l.once]
    else if Registering(s, l) then [s.lm.dpc.task.once]
    else []
  }

  predicate AsAsked(h: Listener, flags: seq<bool>) {
    h.id < |flags| && h.once == flags[h.id]
  }

  /** Whoever is in the list or in hand is treated as it asked to be. */
  predicate FlagsKept(s: State, flags: seq<bool>) {
    && |flags| == s.next
    && (forall i :: 0 <= i < |s.handlers| ==> AsAsked(s.handlers[i], flags))
    && (s.im.IHeld? && s.im.pc.RegCheck? ==> AsAsked(s.im.pc.l, flags))
    && (s.im.IHeld? && s.im.pc.ListPush? ==> AsAsked(s.im.pc.l, flags))
  }

  lemma StepFlags(s: State, l: Label, flags: seq<bool>)
    requires FlagsKept(s, flags) && Enabled(s, l)
    ensures FlagsKept(Step(s, l), flags + AskedNow(s, l))
  {
    hide Step, Release, EmitAction;
    var v, more := Step(s, l), flags + AskedNow(s, l);
    ListedFrom(s, l);
    HandFrom(s, l);
    forall i | 0 <= i < |v.handlers| ensures AsAsked(v.handlers[i], more) {
      assert v.handlers[i] in v.handlers;
      if v.handlers[i] in s.handlers {
        var j :| 0 <= j < |s.handlers| && s.handlers[j] == v.handlers[i];
        assert AsAsked(s.handlers[j], flags);
      }
    }
  }

  /** A listener in the list was there or has been put there by its registrar. */
  lemma ListedFrom(s: State, l: Label)
    requires Enabled(s, l)
    ensures forall h :: h in Step(s, l).handlers ==> h in s.handlers || (s.im.IHeld? && s.im.pc == ListPush(h))
  {
  }

  /** How what is in hand moves: as it was, from the check to the list, or just registered with `asked`. */
  predicate HandMoves(s: State, v: State, asked: seq<bool>) {
    && v.next == s.next + |asked|
    && (v.im.IHeld? && v.im.pc.ListPush? ==>
          v.im == s.im || (s.im.IHeld? && s.im.pc == RegCheck(v.im.pc.l)))
    && (v.im.IHeld? && v.im.pc.RegCheck? ==>
          || (v.im == s.im && asked == [])
          || (asked == [v.im.pc.l.once] && v.im.pc.l.id == s.next))
  }

  lemma RegistrarHand(s: State)
    requires s.im.IHeld? && (s.im.pc.WantLoop? ==> CanTakeLoop(s))
    ensures HandMoves(s, RegisterAction(s), [])
  {
  }

  lemma InitHand(s: State, rc: int)
    requires s.im.IHeld?
    ensures HandMoves(s, InitAction(s, rc), []) || !OfInit(s.im.pc)
  {
  }

  lemma OtherHand(s: State, l: Label)
    requires Enabled(s, l) && !l.HolderStep?
    ensures HandMoves(s, Step(s, l), AskedNow(s, l))
  {
  }

  lemma HandFrom(s: State, l: Label)
    requires Enabled(s, l)
    ensures HandMoves(s, Step(s, l), AskedNow(s, l))
  {
    hide HandMoves, RegisterAction, InitAction;
    if l.HolderStep? {
      RegistrarHand(s);
      InitHand(s, l.rc);
    } else {
      OtherHand(s, l);
    }
  }

  lemma {:induction false} RunFlags(s: State, ls: seq<Label>, flags: seq<bool>)
    requires FlagsKept(s, flags) && Valid(s, ls)
    ensures FlagsKept(Run(s, ls), flags + Asked(s, ls))
    decreases ls
  {
    hide Step, Enabled, AskedNow;
    if ls == [] {
      assert flags + [] == flags;
    } else {
      StepFlags(s, ls[0], flags);
      RunFlags(Step(s, ls[0]), ls[1..], flags + AskedNow(s, ls[0]));
      Associative(flags, AskedNow(s, ls[0]), Asked(Step(s, ls[0]), ls[1..]));
    }
  }

  /**
   * Over every run the listeners in the list are lasting or not as they were registered; so, by what
   * `ExactlyOnePlace` says of the dispatch, those it leaves were registered with `on`.
   */
  lemma ListedAsAsked(ls: seq<Label>, i: nat)
    requires Valid(START, ls) && i < |Run(START, ls).handlers|
    ensures var h := Run(START, ls).handlers[i];
            && h.id < |Asked(START, ls)| && h.once == Asked(START, ls)[h.id]
            && (Run(START, ls).dispatched ==> !Asked(START, ls)[h.id])
  {
    RunFlags(START, ls, []);
    assert [] + Asked(START, ls) == Asked(START, ls);
    assert AsAsked(Run(START, ls).handlers[i], Asked(START, ls));
    ExactlyOnePlace(ls, 0);
  }

  // ---- the two mutexes against each other ----

  /**
   * A thread registering late holds the init mutex and wants the loop mutex, while the loop thread,
   * draining, runs a task that wants the init mutex.
   */
  predicate CrossWait(s: State) {
    && s.im.IHeld? && s.im.pc.WantLoop? && s.im.tid != LOOP_THREAD
    && s.lm.LDraining? && s.lm.dpc.AwaitInitMutex?
  }

  /** A step of a thread that is already inside: it holds a mutex. Registering, `init`, submitting and
      starting a drain are for the environment to begin. */
  predicate Inside(l: Label) {
    l.HolderStep? || l.DrainPop? || l.DrainAcquire? || l.DrainDeliver? || l.EndDrain?
  }

  /** A mutex is held, and nobody who holds one can go on. */
  ghost predicate Stuck(s: State) {
    && (s.im.IHeld? || !s.lm.LFree?)
    && forall l: Label :: Inside(l) ==> !Enabled(s, l)
  }

  /**
   * A reachable state in which a mutex is held and no holder can go on is exactly a cross wait; and then
   * nothing else can begin either.
   */
  lemma StuckIffCrossWait(ls: seq<Label>)
    requires Valid(START, ls)
    ensures Stuck(Run(START, ls)) <==> CrossWait(Run(START, ls))
    ensures CrossWait(Run(START, ls)) ==> forall l: Label :: !Enabled(Run(START, ls), l)
  {
    StartInv();
    RunInv(START, ls);
    var s := Run(START, ls);
    if !CrossWait(s) && (s.im.IHeld? || !s.lm.LFree?) {
      var l := HolderMoves(s);
      assert Inside(l) && Enabled(s, l);
    }
  }

  /** Whoever is inside can go on, unless the two mutexes wait for each other. */
  lemma HolderMoves(s: State) returns (l: Label)
    requires Control(s) && !CrossWait(s) && (s.im.IHeld? || !s.lm.LFree?)
    ensures Inside(l) && Enabled(s, l)
  {
    if s.im.IHeld? && (!s.im.pc.WantLoop? || CanTakeLoop(s)) {
      l := HolderStep(0);
    } else {
      match s.lm.dpc {
        case AtCheck => l := if s.queue == [] then EndDrain else DrainPop;
        case AwaitInitMutex(_) => l := DrainAcquire;
        case Delivering(_) => l := DrainDeliver;
      }
    }
  }

  // ---- who may do what, and the cross wait ----

  /**
   * What a program that uses one handle may do: register InitEvent off the loop thread, queue tasks that
   * register it, call `init` by hand, and queue at most `inits` tasks that call it (`create` queues one).
   */
  datatype Policy = Policy(offLoop: bool, registrations: bool, byHand: bool, inits: nat)

  predicate Permits(p: Policy, l: Label) {
    && (l.BeginRegister? && l.tid != LOOP_THREAD ==> p.offLoop)
    && (l.BeginInit? ==> p.byHand)
    && (l.Post? && l.task.RegisterTask? ==> p.registrations)
    && (l.Post? && l.task.InitTask? ==> p.inits > 0)
  }

  /** What is left of the policy after a step. */
  function Spend(p: Policy, l: Label): Policy
    requires Permits(p, l)
  {
    if l.Post? && l.task.InitTask? then p.(inits := p.inits - 1) else p
  }

  predicate Obeys(ls: seq<Label>, p: Policy)
    decreases ls
  {
    ls == [] || (Permits(p, ls[0]) && Obeys(ls[1..], Spend(p, ls[0])))
  }

  /** `ls` is a run from `s` that obeys `p` and ends in a cross wait. */
  predicate Jams(s: State, ls: seq<Label>, p: Policy) {
    Valid(s, ls) && Obeys(ls, p) && CrossWait(Run(s, ls))
  }

  /**
   * Somebody may register late from another thread, and besides whatever initialises the handle a further
   * task that takes the init mutex may be queued.
   */
  predicate Risks(p: Policy) {
    && p.offLoop
    && (|| (p.registrations && (p.byHand || p.inits >= 1))
        || (p.byHand && p.inits >= 1)
        || p.inits >= 2)
  }

  /** A policy without that risk keeps the two mutexes from ever waiting for each other. */
  lemma DisciplineAvoidsCrossWait(ls: seq<Label>, p: Policy)
    requires Valid(START, ls) && Obeys(ls, p) && !Risks(p)
    ensures !CrossWait(Run(START, ls)) && !Stuck(Run(START, ls))
  {
    StartInv();
    RunInv(START, ls);
    if !p.offLoop {
      LoopThreadRun(START, ls, p);
    } else if !p.byHand && p.inits == 0 {
      NeverInitedRun(START, ls, p);
    } else if p.inits == 0 {
      QuietQueueRun(START, ls, p);
    } else {
      OneInitRun(START, ls, p);
    }
    StuckIffCrossWait(ls);
  }

  /**
   * The deadlock is reachable under a policy if and only if the policy has that risk. Creating a handle
   * and registering from any thread does not have it; initialising by hand what `create` has queued, or
   * queueing a registration, does.
   */
  lemma CrossWaitIffPolicy(p: Policy)
    ensures (exists ls :: Jams(START, ls, p)) <==> Risks(p)
  {
    if Risks(p) {
      var ls := RiskTaken(p);
    } else {
      forall ls | Valid(START, ls) && Obeys(ls, p) ensures !Jams(START, ls, p) {
        DisciplineAvoidsCrossWait(ls, p);
      }
    }
  }

  /** Nobody registers late from another thread. */
  predicate RegistersOnLoop(s: State) {
    s.im.IHeld? && !OfInit(s.im.pc) ==> s.im.tid == LOOP_THREAD
  }

  lemma {:induction false} LoopThreadRun(s: State, ls: seq<Label>, p: Policy)
    requires Valid(s, ls) && Obeys(ls, p) && !p.offLoop && RegistersOnLoop(s)
    ensures RegistersOnLoop(Run(s, ls))
    decreases ls
  {
    if ls != [] {
      LoopThreadRun(Step(s, ls[0]), ls[1..], Spend(p, ls[0]));
    }
  }

  /** Tasks that call `init` and have not begun to: on the queue, or waiting for the init mutex. */
  function PendingInits(s: State): nat {
    QueuedInits(s.queue) + One(s.lm == LDraining(AwaitInitMutex(InitTask)))
  }

  function QueuedInits(q: seq<QueuedTask>): nat {
    if q == [] then 0 else One(q[0].InitTask?) + QueuedInits(q[1..])
  }

  lemma {:induction false} QueuedInitsSnoc(q: seq<QueuedTask>, t: QueuedTask)
    ensures QueuedInits(q + [t]) == QueuedInits(q) + One(t.InitTask?)
  {
    if q == [] {
      assert (q + [t])[1..] == [];
    } else {
      QueuedInitsSnoc(q[1..], t);
      assert (q + [t])[1..] == q[1..] + [t];
    }
  }

  /** `init` has been called and has not given up: it is running, or has run. */
  predicate InitBegun(s: State) {
    s.inited || (s.im.IHeld? && OfInit(s.im.pc))
  }

  lemma PendingStep(s: State, l: Label)
    requires Control(s) && Enabled(s, l)
    ensures PendingInits(Step(s, l)) + One(InitBegun(Step(s, l)) && !InitBegun(s))
            <= PendingInits(s) + One(l.Post? && l.task.InitTask?) + One(l.BeginInit?)
    ensures PendingInits(Step(s, l)) <= PendingInits(s) + One(l.Post? && l.task.InitTask?)
    ensures InitBegun(s) ==> InitBegun(Step(s, l))
  {
    if l.Post? {
      QueuedInitsSnoc(s.queue, l.task);
    } else if l.HolderStep? {
      PendingHolder(s, l.rc);
    }
  }

  lemma PendingHolder(s: State, rc: int)
    requires Control(s) && Enabled(s, HolderStep(rc))
    ensures PendingInits(Holder(s, rc)) == PendingInits(s) && InitBegun(Holder(s, rc)) == InitBegun(s)
  {
    if s.im.pc.QueuePush? {
      QueuedInitsSnoc(s.queue, Deliver(s.im.pc.l.id));
    }
  }

  /** With no init to come from anywhere, nobody is ever late. */
  lemma {:induction false} NeverInitedRun(s: State, ls: seq<Label>, p: Policy)
    requires Inv(s) && Valid(s, ls) && Obeys(ls, p) && !p.byHand && p.inits == 0
    requires PendingInits(s) == 0 && !InitBegun(s)
    ensures !Run(s, ls).inited
    decreases ls
  {
    if ls != [] {
      StepInv(s, ls[0]);
      PendingStep(s, ls[0]);
      NeverInitedRun(Step(s, ls[0]), ls[1..], Spend(p, ls[0]));
    }
  }

  /** No task that registers InitEvent: a task that waits for the init mutex is one that calls `init`. */
  predicate NoRegistrations(s: State) {
    && (forall i :: 0 <= i < |s.queue| ==> !s.queue[i].RegisterTask?)
    && (s.lm.LDraining? && s.lm.dpc.AwaitInitMutex? ==> s.lm.dpc.task.InitTask?)
  }

  lemma NoRegistrationsStep(s: State, l: Label)
    requires Enabled(s, l) && NoRegistrations(s) && (l.Post? ==> !l.task.RegisterTask?)
    ensures NoRegistrations(Step(s, l))
  {
    var t := Step(s, l);
    if l.DrainPop? {
      forall i | 0 <= i < |t.queue| ensures t.queue[i] == s.queue[i + 1] {}
    } else if l.HolderStep? {
      NoRegistrationsHolder(s, l.rc);
    }
  }

  lemma NoRegistrationsHolder(s: State, rc: int)
    requires Enabled(s, HolderStep(rc)) && NoRegistrations(s)
    ensures NoRegistrations(Holder(s, rc))
  {
    var t := Holder(s, rc);
    if !s.im.pc.QueuePush? {
      assert t.queue == s.queue;
    }
    assert t.lm.LDraining? ==> t.lm == s.lm || t.lm.dpc == AtCheck;
  }

  /** The one queued init is what initialises: once it has, no other task takes the init mutex. */
  lemma {:induction false} OneInitRun(s: State, ls: seq<Label>, p: Policy)
    requires Inv(s) && Valid(s, ls) && Obeys(ls, p) && !p.byHand && !p.registrations
    requires NoRegistrations(s) && PendingInits(s) + p.inits + One(InitBegun(s)) <= 1
    ensures !CrossWait(Run(s, ls))
    decreases ls
  {
    if ls == [] {
      if s.im.IHeld? && s.im.pc.WantLoop? {
        assert s.inited;
      }
    } else {
      StepInv(s, ls[0]);
      PendingStep(s, ls[0]);
      NoRegistrationsStep(s, ls[0]);
      OneInitRun(Step(s, ls[0]), ls[1..], Spend(p, ls[0]));
    }
  }

  /** No task that takes the init mutex at all. */
  lemma {:induction false} QuietQueueRun(s: State, ls: seq<Label>, p: Policy)
    requires Inv(s) && Valid(s, ls) && Obeys(ls, p) && !p.registrations && p.inits == 0
    requires NoRegistrations(s) && PendingInits(s) == 0
    ensures !CrossWait(Run(s, ls))
    decreases ls
  {
    if ls != [] {
      StepInv(s, ls[0]);
      PendingStep(s, ls[0]);
      NoRegistrationsStep(s, ls[0]);
      QuietQueueRun(Step(s, ls[0]), ls[1..], Spend(p, ls[0]));
    }
  }

  // ---- taking the risk ----

  lemma RunCons(s: State, l: Label, rest: seq<Label>)
    requires Enabled(s, l) && Valid(Step(s, l), rest)
    ensures Valid(s, [l] + rest) && Run(s, [l] + rest) == Run(Step(s, l), rest)
  {
    assert ([l] + rest)[1..] == rest;
  }

  lemma JamsCons(s: State, l: Label, rest: seq<Label>, p: Policy)
    requires Enabled(s, l) && Permits(p, l) && Jams(Step(s, l), rest, Spend(p, l))
    ensures Jams(s, [l] + rest, p)
  {
    RunCons(s, l, rest);
    assert ([l] + rest)[1..] == rest;
  }

  /** A drain about to take a task that wants the init mutex, while another thread registers late. */
  lemma LateRegistration(s: State, p: Policy) returns (ls: seq<Label>)
    requires s.im.IFree? && s.inited && s.lm == LDraining(AtCheck) && p.offLoop
    requires s.queue != [] && (s.queue[0].InitTask? || s.queue[0].RegisterTask?)
    ensures Jams(s, ls, p)
  {
    var s1 := Step(s, BeginRegister(1, true));
    var s2 := Step(s1, HolderStep(0));
    var s3 := Step(s2, DrainPop);
    ls := [];
    assert Jams(s3, ls, p);
    JamsCons(s2, DrainPop, ls, p);
    ls := [DrainPop] + ls;
    JamsCons(s1, HolderStep(0), ls, p);
    ls := [HolderStep(0)] + ls;
    JamsCons(s, BeginRegister(1, true), ls, p);
    ls := [BeginRegister(1, true)] + ls;
  }

  /** The loop thread has just called `init` for the first time, nobody waiting. */
  predicate FirstInit(s: State) {
    s.im == IHeld(LOOP_THREAD, InitCheck) && !s.inited && s.payload.None? && s.handlers == [] && s.cursor == 0
  }

  /** ... and this is what `init` leaves. */
  function Initialised(s: State): State {
    Release(s).(inited := true, initEvent := Some(0), payload := Some(0), uvInits := s.uvInits + 1, dispatched := true)
  }

  lemma InitThenJams(s: State, rest: seq<Label>, p: Policy) returns (ls: seq<Label>)
    requires FirstInit(s) && Jams(Initialised(s), rest, p)
    ensures Jams(s, ls, p)
  {
    hide Jams, Permits, Holder;
    var go := HolderStep(0);
    var s1 := s.(im := IHeld(LOOP_THREAD, UvInit));
    var s2 := s.(im := IHeld(LOOP_THREAD, Emitting), payload := Some(0), uvInits := s.uvInits + 1);
    var s3 := s2.(im := IHeld(LOOP_THREAD, SetInited), dispatched := true);
    var s4 := s3.(im := IHeld(LOOP_THREAD, SetEvent), inited := true);
    var s5 := s4.(im := IHeld(LOOP_THREAD, InitUnlock), initEvent := Some(0));
    assert Step(s5, go) == Initialised(s) by { InitSteps(s5); }
    ls := HolderJams(s5, rest, p);
    assert Step(s4, go) == s5 by { InitSteps(s4); }
    ls := HolderJams(s4, ls, p);
    assert Step(s3, go) == s4 by { InitSteps(s3); }
    ls := HolderJams(s3, ls, p);
    assert Step(s2, go) == s3 by { InitSteps(s2); }
    ls := HolderJams(s2, ls, p);
    assert Step(s1, go) == s2 by { InitSteps(s1); }
    ls := HolderJams(s1, ls, p);
    assert Step(s, go) == s1 by { InitSteps(s); }
    ls := HolderJams(s, ls, p);
  }

  lemma InitSteps(s: State)
    requires s.im.IHeld? && OfInit(s.im.pc)
    ensures Enabled(s, HolderStep(0)) && Step(s, HolderStep(0)) == InitAction(s, 0)
  {
  }

  lemma HolderJams(s: State, rest: seq<Label>, p: Policy) returns (ls: seq<Label>)
    requires Enabled(s, HolderStep(0)) && Jams(Step(s, HolderStep(0)), rest, p)
    ensures Jams(s, ls, p)
  {
    hide Jams, Step;
    JamsCons(s, HolderStep(0), rest, p);
    ls := [HolderStep(0)] + rest;
  }

  /** The task is queued first, then the loop thread initialises by hand. */
  lemma JamByHand(task: QueuedTask, p: Policy) returns (ls: seq<Label>)
    requires (task.InitTask? || task.RegisterTask?) && Permits(p, Post(task)) && p.byHand && p.offLoop
    ensures Jams(START, ls, p) && |ls| > 0 && ls[0] == Post(task)
  {
    var q := Spend(p, Post(task));
    var s1 := Step(START, Post(task));
    var s2 := Step(s1, BeginInit(LOOP_THREAD));
    var s3 := Initialised(s2);
    ls := LateRegistration(Step(s3, BeginDrain), q);
    JamsCons(s3, BeginDrain, ls, q);
    ls := InitThenJams(s2, [BeginDrain] + ls, q);
    JamsCons(s1, BeginInit(LOOP_THREAD), ls, q);
    ls := [BeginInit(LOOP_THREAD)] + ls;
    JamsCons(START, Post(task), ls, p);
    ls := [Post(task)] + ls;
  }

  /** A queued init runs, the task behind it wants the init mutex too. */
  lemma JamQueued(task: QueuedTask, p: Policy) returns (ls: seq<Label>)
    requires (task.InitTask? || task.RegisterTask?) && p.offLoop && p.inits > 0
    requires Permits(Spend(p, Post(InitTask)), Post(task))
    ensures Jams(START, ls, p)
  {
    var q := Spend(p, Post(InitTask));
    var r := Spend(q, Post(task));
    var s1 := Step(START, Post(InitTask));
    var s2 := Step(s1, Post(task));
    var s3 := Step(s2, BeginDrain);
    var s4 := Step(s3, DrainPop);
    var s5 := Step(s4, DrainAcquire);
    ls := LateRegistration(Initialised(s5), r);
    ls := InitThenJams(s5, ls, r);
    JamsCons(s4, DrainAcquire, ls, r);
    ls := [DrainAcquire] + ls;
    JamsCons(s3, DrainPop, ls, r);
    ls := [DrainPop] + ls;
    JamsCons(s2, BeginDrain, ls, r);
    ls := [BeginDrain] + ls;
    JamsCons(s1, Post(task), ls, q);
    ls := [Post(task)] + ls;
    JamsCons(START, Post(InitTask), ls, p);
    ls := [Post(InitTask)] + ls;
  }

  lemma RiskTaken(p: Policy) returns (ls: seq<Label>)
    requires Risks(p)
    ensures Jams(START, ls, p)
  {
    if p.byHand {
      ls := JamByHand(if p.inits > 0 then InitTask else RegisterTask(true), p);
    } else {
      ls := JamQueued(if p.inits > 1 then InitTask else RegisterTask(true), p);
    }
  }

  /**
   * The cross wait is reachable with what `create` itself queues: the loop thread initialises by hand
   * while the queued init is still pending, another thread registers late, and the drain reaches the
   * queued init.
   */
  lemma CrossWaitReachable() returns (ls: seq<Label>)
    ensures Valid(START, ls) && CrossWait(Run(START, ls)) && Obeys(ls, Policy(true, false, true, 1))
    ensures |ls| > 0 && ls[0] == Post(InitTask)
  {
    ls := JamByHand(InitTask, Policy(true, false, true, 1));
  }

  /** The listeners a dispatch keeps. */
  function Kept(hs: seq<Listener>): seq<Listener> {
    if hs == [] then [] else (if hs[0].once then [] else [hs[0]]) + Kept(hs[1..])
  }

  lemma {:induction false} KeptSnoc(hs: seq<Listener>, h: Listener)
    ensures Kept(hs + [h]) == Kept(hs) + (if h.once then [] else [h])
  {
    if hs == [] {
      assert (hs + [h])[1..] == [];
    } else {
      KeptSnoc(hs[1..], h);
      assert (hs + [h])[1..] == hs[1..] + [h];
      Associative(if hs[0].once then [] else [hs[0]], Kept(hs[1..]), if h.once then [] else [h]);
    }
  }

  /** What telling `hs` the status `rc` adds to the log of tellings. */
  function Tellings(hs: seq<Listener>, rc: int): seq<(nat, int)> {
    seq(|hs|, i requires 0 <= i < |hs| => (hs[i].id, rc))
  }

  /** The state once the dispatch that `s` is in the middle of has finished. */
  function Dispatched(s: State): State
    requires s.im.IHeld? && s.payload.Some? && s.cursor <= |s.handlers|
  {
    var ahead := s.handlers[s.cursor..];
    At(s, SetInited).(dispatched := true, cursor := s.cursor + |Kept(ahead)|,
      handlers := s.handlers[..s.cursor] + Kept(ahead), delivered := s.delivered + Tellings(ahead, s.payload.value))
  }

  /** One turn of the dispatch on the list and on the log of tellings. */
  lemma TurnLists(list: seq<Listener>, it: nat, log: seq<(nat, int)>, rc: int)
    requires it < |list|
    ensures var l := list[it];
            var (after, next) := if l.once then (list[..it] + list[it + 1..], it) else (list, it + 1);
            && after[next..] == list[it + 1..]
            && after[..next] + Kept(after[next..]) == list[..it] + Kept(list[it..])
            && next + |Kept(after[next..])| == it + |Kept(list[it..])|
            && (log + [(l.id, rc)]) + Tellings(after[next..], rc) == log + Tellings(list[it..], rc)
  {
    var l, rest := list[it], list[it + 1..];
    var lasts := if l.once then [] else [l];
    assert list[it..] == [l] + rest;
    assert Tellings([l] + rest, rc) == [(l.id, rc)] + Tellings(rest, rc);
    Associative(log, [(l.id, rc)], Tellings(rest, rc));
    assert Kept(list[it..]) == lasts + Kept(rest) by { assert list[it..][1..] == rest; }
    Associative(list[..it], lasts, Kept(rest));
    var (after, next) := if l.once then (list[..it] + list[it + 1..], it) else (list, it + 1);
    assert after[next..] == rest && after[..next] == list[..it] + lasts;
  }

  lemma DispatchedStep(s: State, rc: int)
    requires s.im.IHeld? && s.im.pc.Emitting? && s.payload.Some? && s.cursor < |s.handlers|
    ensures var v := Step(s, HolderStep(rc));
            && v.im == s.im && v.payload == s.payload && v.cursor <= |v.handlers|
            && |v.handlers| - v.cursor == |s.handlers| - s.cursor - 1
            && Dispatched(v) == Dispatched(s)
  {
    hide Kept, Tellings;
    TurnLists(s.handlers, s.cursor, s.delivered, s.payload.value);
  }

  /** The dispatch in the machine, left to itself, tells and keeps whom `InitHandle.Init` tells and keeps. */
  lemma {:induction false} DispatchRuns(s: State, rc: int)
    requires s.im.IHeld? && s.im.pc.Emitting? && s.payload.Some? && s.cursor <= |s.handlers|
    ensures var ls := Repeat(HolderStep(rc), |s.handlers| - s.cursor + 1);
            Valid(s, ls) && Run(s, ls) == Dispatched(s)
    decreases |s.handlers| - s.cursor
  {
    var l := HolderStep(rc);
    if s.cursor == |s.handlers| {
      assert s.handlers[s.cursor..] == [] && s.handlers[..s.cursor] + [] == s.handlers;
      assert s.delivered + [] == s.delivered;
      RunCons(s, l, []);
      assert Repeat(l, 1) == [l] + [];
    } else {
      DispatchedStep(s, rc);
      var v := Step(s, l);
      DispatchRuns(v, rc);
      RunCons(s, l, Repeat(l, |v.handlers| - v.cursor + 1));
    }
  }

  /** The machine's `init`, first call and left to itself: the answer of `uv_tcp_init` is `rc`. */
  function InitLeaves(s: State, rc: int): State
    requires s.im.IHeld?
  {
    Release(s).(inited := true, initEvent := Some(rc), payload := Some(rc), uvInits := s.uvInits + 1,
                dispatched := true, cursor := |Kept(s.handlers)|, handlers := Kept(s.handlers),
                delivered := s.delivered + Tellings(s.handlers, rc))
  }

  lemma StepsThen(s: State, l: Label, n: nat, m: nat)
    requires Valid(s, Repeat(l, n)) && Valid(Run(s, Repeat(l, n)), Repeat(l, m))
    ensures Valid(s, Repeat(l, n + m)) && Run(s, Repeat(l, n + m)) == Run(Run(s, Repeat(l, n)), Repeat(l, m))
    decreases n
  {
    hide Step, Enabled;
    if n > 0 {
      assert Repeat(l, n) == [l] + Repeat(l, n - 1) && ([l] + Repeat(l, n - 1))[1..] == Repeat(l, n - 1);
      StepsThen(Step(s, l), l, n - 1, m);
      RunCons(s, l, Repeat(l, n - 1 + m));
    }
  }

  lemma TwoSteps(s: State, l: Label)
    requires Enabled(s, l) && Enabled(Step(s, l), l)
    ensures Valid(s, Repeat(l, 2)) && Run(s, Repeat(l, 2)) == Step(Step(s, l), l)
  {
    hide Step, Enabled;
    var t := Step(s, l);
    RunCons(t, l, []);
    assert Repeat(l, 1) == [l] + [];
    RunCons(s, l, [l] + []);
  }

  lemma ThreeSteps(s: State, l: Label)
    requires Enabled(s, l) && Enabled(Step(s, l), l) && Enabled(Step(Step(s, l), l), l)
    ensures Valid(s, Repeat(l, 3)) && Run(s, Repeat(l, 3)) == Step(Step(Step(s, l), l), l)
  {
    hide Step, Enabled;
    TwoSteps(Step(s, l), l);
    RunCons(s, l, Repeat(l, 2));
  }

  /**
   * What the machine's `init` does when it is not held up is what `InitHandle.Init` promises, for every
   * answer of `uv_tcp_init`: everybody waiting is told it, in order, and it is stored for the late ones.
   */
  lemma InitRuns(s: State, rc: int)
    requires s.im.IHeld? && s.im.pc.InitCheck? && !s.inited && s.payload.None? && s.cursor == 0
    ensures var ls := Repeat(HolderStep(rc), |s.handlers| + 6);
            Valid(s, ls) && Run(s, ls) == InitLeaves(s, rc)
  {
    hide Kept, Tellings, Valid, Run, Repeat;
    var go := HolderStep(rc);
    TwoSteps(s, go);
    var m := Run(s, Repeat(go, 2));
    assert m == s.(im := s.im.(pc := Emitting), payload := Some(rc), uvInits := s.uvInits + 1);
    DispatchRuns(m, rc);
    var d := Run(m, Repeat(go, |s.handlers| + 1));
    assert s.handlers[0..] == s.handlers && s.handlers[..0] == [];
    assert [] + Kept(s.handlers) == Kept(s.handlers);
    ThreeSteps(d, go);
    StepsThen(m, go, |s.handlers| + 1, 3);
    StepsThen(s, go, 2, |s.handlers| + 4);
  }

  lemma NobodyYet(rc: int)
    ensures Tellings([], rc) == [] && Kept([]) == []
  {
  }

  lemma TellingsSnoc(hs: seq<Listener>, h: Listener, rc: int)
    ensures Tellings(hs + [h], rc) == Tellings(hs, rc) + [(h.id, rc)]
  {
  }

  /** The InitEvent side of a handle, each method being one critical section. */
  class InitHandle {
    var inited: bool
    var initEvent: Option<int>
    var callbacks: seq<Listener>
    /** Callbacks handed to the loop by `invokeInitEventCallback`. */
    var queue: seq<nat>
    var delivered: seq<(nat, int)>

    constructor ()
      ensures !inited && initEvent == None && callbacks == [] && queue == [] && delivered == []
    {
      inited, initEvent, callbacks, queue, delivered := false, None, [], [], [];
    }

    /** `on<InitEvent>` and `once<InitEvent>`. */
    method Register(l: Listener)
      modifies this
      ensures queue == old(queue) + (if old(inited) then [l.id] else [])
      ensures callbacks == old(callbacks) + (if old(inited) then [] else [l])
      ensures inited == old(inited) && initEvent == old(initEvent) && delivered == old(delivered)
    {
      if inited {
        queue := queue + [l.id];
        return;
      }
      callbacks := callbacks + [l];
    }

    /** `Handle::init`: the first call tells everybody who is waiting; later calls do nothing. */
    method Init(rc: int)
      modifies this
      ensures old(inited) ==>
                callbacks == old(callbacks) && delivered == old(delivered) && initEvent == old(initEvent)
      ensures !old(inited) ==>
                && initEvent == Some(rc)
                && delivered == old(delivered) + Tellings(old(callbacks), rc)
                && callbacks == Kept(old(callbacks))
      ensures inited && queue == old(queue)
    {
      hide Tellings, Kept;
      if !inited {
        var it: nat := 0;
        assert Tellings([], rc) == [] && Kept([]) == [] by { NobodyYet(rc); }
        ghost var told: nat := 0;
        while it < |callbacks|
          invariant it <= |callbacks| && told <= |old(callbacks)|
          invariant callbacks[it..] == old(callbacks)[told..]
          invariant delivered == old(delivered) + Tellings(old(callbacks)[..told], rc)
          invariant callbacks[..it] == Kept(old(callbacks)[..told])
          invariant queue == old(queue) && inited == old(inited) && initEvent == old(initEvent)
          decreases |callbacks| - it
        {
          ghost var list, from := callbacks, it;
          var l := callbacks[it];
          assert l == callbacks[it..][0] == old(callbacks)[told];
          delivered := delivered + [(l.id, rc)];
          if l.once {
            callbacks := callbacks[..it] + callbacks[it + 1..];
          } else {
            it := it + 1;
          }
          assert callbacks[it..] == list[from..][1..];
          KeptSnoc(old(callbacks)[..told], l);
          TellingsSnoc(old(callbacks)[..told], l, rc);
          assert old(callbacks)[..told + 1] == old(callbacks)[..told] + [l];
          assert callbacks[..it] == list[..from] + (if l.once then [] else [l]);
          told := told + 1;
        }
        assert callbacks[..it] == callbacks && old(callbacks)[..told] == old(callbacks);
        inited := true;
        initEvent := Some(rc);
      }
    }

    /** One queued late callback running on the loop: it reads the stored event then. */
    method RunQueued()
      requires queue != [] && initEvent.Some?
      modifies this`queue, this`delivered
      ensures queue == old(queue)[1..]
      ensures delivered == old(delivered) + [(old(queue)[0], initEvent.value)]
    {
      var id := queue[0];
      queue := queue[1..];
      delivered := delivered + [(id, initEvent.value)];
    }
  }
}
