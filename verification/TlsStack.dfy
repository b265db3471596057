/**
 * The whole stack on the loop thread: a TLS socket over a TCP socket over libuv, with user callbacks
 * that may call back into both (unio/src/net/ssl_socket.cc, unio/src/net/tcp_socket.cc).
 *
 * libuv starts one activity at a time; everything the code has still to do in it after the call it is
 * now in is on an explicit stack. A `User` frame is user code: it may make any calls before returning.
 *
 * Premises, besides those of Engine, SslSocket and TcpRequests: `setParent` was called once, at the
 * start, and the user leaves its listeners on the parent alone; the parent delivers read events only
 * once a TLS engine exists; SSL `write` is given a callback, and it and `disconnect` come after a
 * connect that created the engine and the outbound buffer.
 */
module TlsStack {
  import opened Prelude
  import opened Buffers
  import opened Engine
  import opened SslSocket
  import Req = TcpRequests

  /** What one engine has done since it was made, with its connect's request id. */
  datatype Session = Session(
    serial: nat,
    engine: Tls,
    handed: seq<Byte>,     // to parent writes, in submission order
    genuine: seq<Byte>,    // the same without the windows of failed writes
    stale: nat,            // bytes in those windows, which no engine produced
    emitted: seq<Byte>     // in the SSL socket's SocketReadEvents
  )

  /** The completion the SSL socket attached to a request of its parent. */
  datatype Purpose = ForConnect(callback: bool) | ForFlush | ForUser

  datatype Frame = User | TlsProcess | ClearConnect(n: nat) | EmitDisconnect

  datatype CloseStage = BeforeHook | SslEmitted | AfterHook

  /** What libuv has called into, apart from the frames on the stack. */
  datatype Activity =
    | Idle
    | Completing(id: nat)                            // then: the request reference deletes itself
    | Reading(input: seq<Byte>, again: bool, last: Option<Verdict>)   // the decrypt loop, and its last turn
    | ReadFailed                                     // then: close
    | ClosingCallback(stage: CloseStage)

  /** The listeners `setParent` puts on the parent; each holds the SSL socket. */
  datatype Hook = HookInit | HookClose | HookRead

  datatype World = World(
    tcp: Req.Tcp,
    purposes: seq<Purpose>,            // by request id
    session: Option<Session>,
    outbound: Option<Buf>,
    inbound: Option<nat>,              // capacity of the user's read buffer
    connectEvent: Option<nat>,         // connect_event_, by request id
    handshaked: bool,
    closing: bool,
    activity: Activity,
    stack: seq<Frame>,                 // innermost last
    fired: seq<(nat, bool)>,           // connect callbacks called, and whether with success
    shaken: set<nat>,                  // connects whose engine reached the handshaked state
    hooks: set<Hook>,
    tcpListeners: seq<nat>,            // the user's listeners, numbered as registered
    sslListeners: seq<nat>,
    registered: nat,
    tcpCleared: Option<nat>,           // `registered` when offAll ran in the close callback
    sslCleared: Option<nat>,
    parentCloses: nat,                 // calls of the parent's close by the SSL socket
    tcpCloseEvents: nat,
    sslCloseEvents: nat,
    arrived: seq<Byte>,                // ciphertext the read events brought the current engine
    lost: nat,                         // bytes of it that a loop ended without feeding
    disconnects: nat,                  // calls of `disconnect`
    disconnectEvents: nat              // results of `disconnect` told, success or failure
  )

  const START: World := World(
    Req.CREATED, [], None, None, None, None, false, false, Idle, [], [], {}, {HookInit, HookClose, HookRead},
    [], [], 0, None, None, 0, 0, 0, [], 0, 0, 0)

  datatype Label =
    // user code
    | InitTcp(rc: int)
    | Connect(callback: bool, rc: int)
    | Write(a: Answer, error: ErrorClass, rc: int)
    | Read(capacity: nat)
    | CancelRead
    | SetOutbound(buffer: Buf)
    | Disconnect(shut: Answer)
    | Close
    | CloseTcp
    | Listen(onTcp: bool)
    | UserReturn
    // the library carrying on
    | RunTls(flushError: ErrorClass, flushRc: int)
    | RunClearConnect
    | RunEmitDisconnect
    | RunFinish
    | RunDecrypt(u: UnwrapAnswer)
    | RunReadEnd
    | RunErrorClose
    | RunHook
    | RunSslOffAll
    | RunTcpOffAll
    // libuv
    | ConnectDone(id: nat, status: int, pair: bool, hello: Answer)
    | WriteDone(id: nat, status: int)
    | ParentRead(data: seq<Byte>)
    | ParentReadError
    | CloseCallback

  function Top(w: World): Frame
    requires w.stack != []
  {
    w.stack[|w.stack| - 1]
  }

  function Pop(w: World): World
    requires w.stack != []
  {
    w.(stack := w.stack[..|w.stack| - 1])
  }

  predicate AtTop(w: World, f: Frame) {
    w.stack != [] && Top(w) == f
  }

  /** User code runs: on its own, or inside a callback. */
  predicate UserTurn(w: World) {
    (w.stack == [] && w.activity.Idle?) || AtTop(w, User)
  }

  /** libuv may call in. */
  predicate Quiet(w: World) {
    w.stack == [] && w.activity.Idle?
  }

  /** A request the SSL socket makes of its parent, with libuv's answer. */
  predicate CanSubmit(w: World, rc: int) {
    !w.tcp.phase.Zeroed? && (!w.tcp.phase.Open? ==> rc != 0)
  }

  predicate Enabled(w: World, l: Label) {
    match l
    case InitTcp(_) => UserTurn(w) && !w.tcp.inited
    case Connect(_, rc) => UserTurn(w) && CanSubmit(w, rc)
    case Write(a, _, rc) => UserTurn(w) && CanSubmit(w, rc) && w.session.Some? && w.outbound.Some?
                            && WriteAnswer(w.session.value.engine, a)
    case Read(capacity) => UserTurn(w) && capacity > 0
    case CancelRead => UserTurn(w)
    case SetOutbound(_) => UserTurn(w)
    case Disconnect(_) => UserTurn(w) && w.session.Some?
    case Close => UserTurn(w) && !w.tcp.phase.Zeroed?
    case CloseTcp => UserTurn(w) && !w.tcp.phase.Zeroed?
    case Listen(_) => UserTurn(w)
    case UserReturn => AtTop(w, User)
    case RunTls(_, rc) => AtTop(w, TlsProcess) && w.session.Some? && CanSubmit(w, rc)
    case RunClearConnect => w.stack != [] && Top(w).ClearConnect?
    case RunEmitDisconnect => AtTop(w, EmitDisconnect)
    case RunFinish => w.stack == [] && w.activity.Completing?
    case RunDecrypt(u) => w.stack == [] && w.activity.Reading? && w.activity.again && w.session.Some?
                          && UnwrapAnswerOk(w.session.value.engine, w.activity.input, w.inbound, u)
    case RunReadEnd => w.stack == [] && w.activity.Reading? && !w.activity.again
    case RunErrorClose => w.stack == [] && w.activity.ReadFailed?
    case RunHook => w.stack == [] && w.activity == ClosingCallback(BeforeHook)
    case RunSslOffAll => w.stack == [] && w.activity == ClosingCallback(SslEmitted)
    case RunTcpOffAll => w.stack == [] && w.activity == ClosingCallback(AfterHook)
    case ConnectDone(id, _, _, _) => Quiet(w) && Req.Enabled(w.tcp, Req.DoComplete(id, 0))
                                     && id < |w.purposes| && w.purposes[id].ForConnect?
    case WriteDone(id, _) => Quiet(w) && Req.Enabled(w.tcp, Req.DoComplete(id, 0))
                             && id < |w.purposes| && !w.purposes[id].ForConnect?
    case ParentRead(_) => Quiet(w) && w.tcp.phase.Open? && HookRead in w.hooks && w.session.Some?
    case ParentReadError => Quiet(w) && w.tcp.phase.Open? && HookRead in w.hooks
    case CloseCallback => Quiet(w) && Req.Enabled(w.tcp, Req.BeginCloseCallback)
  }

  function Call(w: World, fs: seq<Frame>): World {
    w.(stack := w.stack + fs)
  }

  function Request(w: World, kind: Req.Kind, p: Purpose, rc: int): World {
    w.(tcp := Req.Submit(w.tcp, Req.Request(kind, true), rc), purposes := w.purposes + [p])
  }

  function DoConnect(w: World, callback: bool, rc: int): World {
    var id := |w.tcp.requests|;
    var v := Request(w, Req.Connect, ForConnect(callback), rc);
    if rc == 0 then v
    else Call(v.(fired := if callback then w.fired + [(id, false)] else w.fired), [User])
  }

  /** The session after a TLS write has handed its window over. */
  function Written(s: Session, outbound: Buf, a: Answer, error: ErrorClass): Session
    requires outbound == outbound.Clear() && WriteAnswer(s.engine, a)
  {
    WriteConservesIff(s.engine, outbound, a, error);
    var (e, o) := WriteData(s.engine, outbound, a, error);
    s.(engine := e, handed := s.handed + o.Window(),
       genuine := if a.rv < 0 then s.genuine else s.genuine + o.Window(),
       stale := if a.rv < 0 then s.stale + |o.Window()| else s.stale)
  }

  function DoWrite(w: World, a: Answer, error: ErrorClass, rc: int): World
    requires Enabled(w, Write(a, error, rc))
  {
    var s := Written(w.session.value, w.outbound.value.Clear(), a, error);
    var (_, o) := WriteData(w.session.value.engine, w.outbound.value.Clear(), a, error);
    var v := Request(w.(session := Some(s), outbound := Some(o)), Req.Write, ForUser, rc);
    if rc == 0 then v else Call(v, [User])
  }

  function AfterCloseImpl(w: World, fromParent: bool): World {
    if w.closing then w
    else
      var v := w.(closing := true, inbound := None);
      if fromParent then v
      else v.(parentCloses := w.parentCloses + 1, tcp := Req.AfterClose(w.tcp))
  }

  function DoDisconnect(w: World, a: Answer): World
    requires w.session.Some?
  {
    var s := w.session.value;
    var v := w.(inbound := None, session := Some(s.(engine := AfterShutdown(s.engine, a))),
                disconnects := w.disconnects + 1);
    if a.rv >= 0 then Call(v, [EmitDisconnect, TlsProcess])
    else Call(v.(disconnectEvents := w.disconnectEvents + 1), [User])
  }

  function DoListen(w: World, onTcp: bool): World {
    var v := w.(registered := w.registered + 1);
    if onTcp then v.(tcpListeners := w.tcpListeners + [w.registered])
    else v.(sslListeners := w.sslListeners + [w.registered])
  }

  /** The session after a flush has handed its window over. */
  function Flushed(s: Session, outbound: Buf, error: ErrorClass): Session
    requires outbound == outbound.Clear()
  {
    DrainConserves(s.engine, outbound, 0, error);
    var (e, o) := Drain(s.engine, outbound, 0, error);
    s.(engine := e, handed := s.handed + o.Window(), genuine := s.genuine + o.Window())
  }

  function FlushStep(w: World, error: ErrorClass, rc: int): World
    requires w.session.Some?
  {
    var s := w.session.value;
    var b := NextOutbound(w.outbound);
    DrainConserves(s.engine, b, 0, error);
    var (_, o) := Drain(s.engine, b, 0, error);
    var v := w.(session := Some(Flushed(s, b, error)), outbound := Some(o));
    if o.Remaining() == 0 then v
    else
      var x := Request(v, Req.Write, ForFlush, rc);
      if rc == 0 then x else Call(x, [TlsProcess])
  }

  function FinishStep(w: World): World {
    var v := w.(handshaked := true);
    if w.connectEvent.None? then v
    else Call(v.(fired := w.fired + [(w.connectEvent.value, true)]), [ClearConnect(w.connectEvent.value), User])
  }

  /** One call of `tlsProcess`. */
  function TlsStep(w: World, error: ErrorClass, rc: int): World
    requires Enabled(w, RunTls(error, rc))
  {
    var v := Pop(w);
    match Status(w.session.value.engine)
    case NeedWrap => FlushStep(v, error, rc)
    case Finished => FinishStep(v)
    case ClosingStatus => AfterCloseImpl(v, false)
    case _ => v
  }

  function Shaken(w: World, s: Session): set<nat> {
    if s.engine.state.StateHandshaked? then w.shaken + {s.serial} else w.shaken
  }

  /** One turn of the decrypt loop, up to the handler. */
  function DecryptStep(w: World, u: UnwrapAnswer): World
    requires Enabled(w, RunDecrypt(u))
  {
    var s := w.session.value;
    var input := w.activity.input;
    var (e, r, got) := UnwrapEngine(s.engine, input, w.inbound, u);
    var t := s.(engine := e, emitted := s.emitted + got);
    var v := w.(session := Some(t), shaken := Shaken(w, t),
                activity := Reading(input[Accepted(input, u)..], w.inbound.Some? && r.DataReadMore?,
                                    Some(VerdictOf(s.engine, input, w.inbound, u))));
    if got == [] then v else Call(v, [User])
  }

  function NewSession(id: nat, pair: bool, hello: Answer): Session {
    Session(id, AfterBegin(NEW_ENGINE, pair, hello), [], [], 0, [])
  }

  function ConnectResult(w: World, id: nat, status: int, pair: bool, hello: Answer): World
    requires Enabled(w, ConnectDone(id, status, pair, hello))
  {
    var v := w.(tcp := Req.Complete(w.tcp, id, status), activity := Completing(id));
    var callback := w.purposes[id].callback;
    if status != 0 then Call(v.(fired := if callback then w.fired + [(id, false)] else w.fired), [User])
    else
      var s := NewSession(id, pair, hello);
      Call(v.(connectEvent := if callback then Some(id) else None, session := Some(s), shaken := Shaken(w, s),
              arrived := [], lost := 0),
           [TlsProcess])
  }

  /** The parent's CloseEvent reaches the SSL socket's listener, which emits its own. */
  function HookStep(w: World): World {
    Call(AfterCloseImpl(w, true).(sslCloseEvents := w.sslCloseEvents + 1,
           activity := ClosingCallback(SslEmitted)), [User])
  }

  function Step(w: World, l: Label): World
    requires Enabled(w, l)
  {
    match l
    case InitTcp(rc) => Call(w.(tcp := Req.AfterInit(w.tcp, rc), hooks := w.hooks - {HookInit}), [User])
    case Connect(callback, rc) => DoConnect(w, callback, rc)
    case Write(a, error, rc) => DoWrite(w, a, error, rc)
    case Read(capacity) => w.(inbound := Some(capacity))
    case CancelRead => w.(inbound := None)
    case SetOutbound(b) => w.(outbound := Some(b))
    case Disconnect(a) => DoDisconnect(w, a)
    case Close => AfterCloseImpl(w, false)
    case CloseTcp => w.(tcp := Req.AfterClose(w.tcp))
    case Listen(onTcp) => DoListen(w, onTcp)
    case UserReturn => Pop(w)
    case RunTls(error, rc) => TlsStep(w, error, rc)
    case RunClearConnect => Pop(w).(connectEvent := None)
    case RunEmitDisconnect => Call(Pop(w).(disconnectEvents := w.disconnectEvents + 1), [User])
    case RunFinish => w.(tcp := Req.Finish(w.tcp, w.activity.id), activity := Idle)
    case RunDecrypt(u) => DecryptStep(w, u)
    case RunReadEnd => Call(w.(activity := Idle, lost := w.lost + |w.activity.input|), [TlsProcess])
    case RunErrorClose => AfterCloseImpl(w.(activity := Idle), false)
    case RunHook => HookStep(w)
    case RunSslOffAll =>
      Call(w.(sslListeners := [], sslCleared := Some(w.registered), hooks := w.hooks - {HookClose},
              activity := ClosingCallback(AfterHook)), [User])
    case RunTcpOffAll =>
      w.(tcpListeners := [], tcpCleared := Some(w.registered), hooks := {},
         tcp := Req.AfterCloseCallback(w.tcp), activity := Idle)
    case ConnectDone(id, status, pair, hello) => ConnectResult(w, id, status, pair, hello)
    case WriteDone(id, status) =>
      Call(w.(tcp := Req.Complete(w.tcp, id, status), activity := Completing(id)),
           [if w.purposes[id].ForFlush? then TlsProcess else User])
    case ParentRead(data) => w.(activity := Reading(data, true, None), arrived := w.arrived + data)
    case ParentReadError => Call(w.(activity := ReadFailed), [User])
    case CloseCallback =>
      Call(w.(tcp := Req.Step(w.tcp, Req.BeginCloseCallback), tcpCloseEvents := w.tcpCloseEvents + 1,
              activity := ClosingCallback(BeforeHook)), [User])
  }

  predicate Valid(w: World, ls: seq<Label>)
    decreases ls
  {
    ls == [] || (Enabled(w, ls[0]) && Valid(Step(w, ls[0]), ls[1..]))
  }

  function Run(w: World, ls: seq<Label>): World
    requires Valid(w, ls)
    decreases ls
  {
    if ls == [] then w else Run(Step(w, ls[0]), ls[1..])
  }

  lemma RunCons(w: World, l: Label, rest: seq<Label>)
    requires Enabled(w, l) && Valid(Step(w, l), rest)
    ensures Valid(w, [l] + rest) && Run(w, [l] + rest) == Run(Step(w, l), rest)
  {
    hide Step, Enabled;
    assert ([l] + rest)[1..] == rest;
  }

  lemma {:induction false} RunSnoc(w: World, ls: seq<Label>, l: Label)
    requires Valid(w, ls) && Enabled(Run(w, ls), l)
    ensures Valid(w, ls + [l]) && Run(w, ls + [l]) == Step(Run(w, ls), l)
    decreases ls
  {
    hide Step, Enabled;
    if ls == [] {
      RunCons(w, l, []);
      assert [l] + [] == ls + [l];
    } else {
      RunSnoc(Step(w, ls[0]), ls[1..], l);
      RunCons(w, ls[0], ls[1..] + [l]);
      assert [ls[0]] + (ls[1..] + [l]) == ls + [l];
    }
  }

  /** The run `ls` from the start ends in `w`. */
  predicate Reaches(ls: seq<Label>, w: World) {
    Valid(START, ls) && Run(START, ls) == w
  }

  /** Some run, of any length and with any choices of libuv, OpenSSL and the user, ends in `w`. */
  ghost predicate Reachable(w: World) {
    exists ls :: Reaches(ls, w)
  }

  lemma StartReachable()
    ensures Reachable(START)
  {
    assert Reaches([], START);
  }

  lemma StepReachable(w: World, l: Label)
    requires Reachable(w) && Enabled(w, l)
    ensures Reachable(Step(w, l))
  {
    hide Step, Enabled;
    var ls :| Reaches(ls, w);
    RunSnoc(START, ls, l);
    assert Reaches(ls + [l], Step(w, l));
  }

  lemma FlushSession(w: World, error: ErrorClass, rc: int)
    requires w.session.Some?
    ensures var v := FlushStep(w, error, rc);
            && v.session == Some(Flushed(w.session.value, NextOutbound(w.outbound), error))
            && v.shaken == w.shaken && v.parentCloses == w.parentCloses
  {
    hide Drain, NextOutbound, Flushed, Req.Submit;
    DrainConserves(w.session.value.engine, NextOutbound(w.outbound), 0, error);
  }

  lemma FinishSession(w: World)
    ensures var v := FinishStep(w); v.session == w.session && v.shaken == w.shaken && v.parentCloses == w.parentCloses
  {
  }

  /** What one call of `tlsProcess` does to the session: a flush if there is something to wrap, else nothing. */
  lemma TlsSession(w: World, error: ErrorClass, rc: int)
    requires Enabled(w, RunTls(error, rc))
    ensures var v := TlsStep(w, error, rc);
            var s := w.session.value;
            && v.session == Some(if Status(s.engine).NeedWrap? then Flushed(s, NextOutbound(w.outbound), error) else s)
            && v.shaken == w.shaken
            && (v.parentCloses > w.parentCloses ==> Status(s.engine).ClosingStatus?)
  {
    hide FlushStep, FinishStep, Flushed, NextOutbound, Req.AfterClose;
    var v := Pop(w);
    match Status(w.session.value.engine) {
      case NeedWrap => FlushSession(v, error, rc);
      case Finished => FinishSession(v);
      case _ =>
    }
  }
}
