/**
 * Closing the stack: who closes whom, how often, which CloseEvents are emitted, and what is left of
 * the listeners and of the references between the two sockets afterwards.
 */
module TlsStackTeardown {
  import opened Prelude
  import opened Engine
  import opened SslSocket
  import opened TlsStack
  import Req = TcpRequests

  /** The parent's CloseEvent has been through the SSL socket's listener, offAll included. */
  predicate SslTornDown(w: World) {
    w.activity == ClosingCallback(AfterHook) || w.tcp.phase.Closed?
  }

  predicate InCallback(w: World) {
    w.tcp.phase.InCloseCallback? || w.tcp.phase.Closed?
  }

  predicate Since(listeners: seq<nat>, cleared: Option<nat>, registered: nat) {
    && (cleared.Some? ==> cleared.value <= registered)
    && (forall i :: 0 <= i < |listeners| ==> listeners[i] < registered)
    && (cleared.Some? ==> forall i :: 0 <= i < |listeners| ==> cleared.value <= listeners[i])
  }

  predicate Closes(w: World) {
    && w.parentCloses <= One(w.closing)
    && (w.tcp.phase.InCloseCallback? <==> w.activity.ClosingCallback?)
    && w.tcp.publishing == (if w.activity.Completing? then {w.activity.id} else {})
    && (w.activity != Idle ==> !w.tcp.phase.Zeroed?)
    && w.tcpCloseEvents == One(InCallback(w))
    && w.sslCloseEvents == One(InCallback(w) && w.activity != ClosingCallback(BeforeHook))
    && (w.sslCloseEvents > 0 ==> w.closing)
  }

  predicate Tables(w: World) {
    && (HookClose in w.hooks <==> !SslTornDown(w))
    && (w.tcp.phase.Closed? ==> w.hooks == {})
    && (w.sslCleared.Some? <==> SslTornDown(w))
    && (w.tcpCleared.Some? <==> w.tcp.phase.Closed?)
    && Since(w.sslListeners, w.sslCleared, w.registered)
    && Since(w.tcpListeners, w.tcpCleared, w.registered)
  }

  ghost predicate Inv(w: World) {
    Req.Inv(w.tcp) && Closes(w) && Tables(w)
  }

  /** Nothing the teardown looks at has changed, the activity apart. */
  predicate SameTeardown(w: World, v: World) {
    && v.tcp.phase == w.tcp.phase && v.tcp.publishing == w.tcp.publishing
    && v.closing == w.closing && v.parentCloses == w.parentCloses
    && v.tcpCloseEvents == w.tcpCloseEvents && v.sslCloseEvents == w.sslCloseEvents
    && v.hooks == w.hooks && v.registered == w.registered
    && v.tcpListeners == w.tcpListeners && v.tcpCleared == w.tcpCleared
    && v.sslListeners == w.sslListeners && v.sslCleared == w.sslCleared
  }

  predicate Plain(l: Label) {
    || l.Connect? || l.Write? || l.Read? || l.CancelRead? || l.SetOutbound? || l.Disconnect?
    || l.UserReturn? || l.RunClearConnect? || l.RunEmitDisconnect?
    || l.RunDecrypt? || l.RunReadEnd? || l.ParentRead? || l.ParentReadError?
  }

  lemma CallSame(w: World, v: World, fs: seq<Frame>)
    requires SameTeardown(w, v)
    ensures SameTeardown(w, Call(v, fs)) && Call(v, fs).activity == v.activity
  {
  }

  lemma RequestSame(w: World, v: World, kind: Req.Kind, p: Purpose, rc: int)
    requires SameTeardown(w, v)
    ensures SameTeardown(w, Request(v, kind, p, rc)) && Request(v, kind, p, rc).activity == v.activity
  {
  }

  lemma ConnectSame(w: World, callback: bool, rc: int)
    ensures SameTeardown(w, DoConnect(w, callback, rc)) && DoConnect(w, callback, rc).activity == w.activity
  {
    hide Request, Call;
    var v := Request(w, Req.Connect, ForConnect(callback), rc);
    RequestSame(w, w, Req.Connect, ForConnect(callback), rc);
    var id := |w.tcp.requests|;
    var x := v.(fired := if callback then w.fired + [(id, false)] else w.fired);
    assert SameTeardown(w, x);
    CallSame(w, x, [User]);
  }

  lemma WriteSame(w: World, a: Answer, error: ErrorClass, rc: int)
    requires Enabled(w, Write(a, error, rc))
    ensures SameTeardown(w, DoWrite(w, a, error, rc)) && DoWrite(w, a, error, rc).activity == w.activity
  {
    hide Request, Call, WriteData, Written;
    var s := Written(w.session.value, w.outbound.value.Clear(), a, error);
    var (_, o) := WriteData(w.session.value.engine, w.outbound.value.Clear(), a, error);
    var x := w.(session := Some(s), outbound := Some(o));
    assert SameTeardown(w, x);
    RequestSame(w, x, Req.Write, ForUser, rc);
    CallSame(w, Request(x, Req.Write, ForUser, rc), [User]);
  }

  lemma DecryptSame(w: World, u: UnwrapAnswer)
    requires Enabled(w, RunDecrypt(u))
    ensures SameTeardown(w, DecryptStep(w, u)) && DecryptStep(w, u).activity.Reading?
  {
    hide UnwrapEngine, Shaken;
  }

  lemma DisconnectSame(w: World, a: Answer)
    requires w.session.Some?
    ensures SameTeardown(w, DoDisconnect(w, a)) && DoDisconnect(w, a).activity == w.activity
  {
    hide AfterShutdown;
  }

  lemma PlainStep(w: World, l: Label)
    requires Enabled(w, l) && Plain(l)
    ensures SameTeardown(w, Step(w, l)) && ActivityAllowed(w, Step(w, l))
  {
    hide DoConnect, DoWrite, DecryptStep, DoDisconnect;
    if l.Connect? {
      ConnectSame(w, l.callback, l.rc);
    } else if l.Write? {
      WriteSame(w, l.a, l.error, l.rc);
    } else if l.RunDecrypt? {
      DecryptSame(w, l.u);
    } else if l.Disconnect? {
      DisconnectSame(w, l.shut);
    }
  }

  /** The activity stays, or moves among those that hold no request and no close callback. */
  predicate ActivityAllowed(w: World, v: World) {
    || v.activity == w.activity
    || (!(w.activity.Completing? || w.activity.ClosingCallback?
          || v.activity.Completing? || v.activity.ClosingCallback?)
        && (v.activity != Idle ==> w.activity != Idle || w.tcp.phase.Open?))
  }

  lemma FlushSame(w: World, error: ErrorClass, rc: int)
    requires w.session.Some?
    ensures SameTeardown(w, FlushStep(w, error, rc)) && FlushStep(w, error, rc).activity == w.activity
  {
    hide Drain, NextOutbound, Flushed, Request, Call;
    var s := w.session.value;
    var b := NextOutbound(w.outbound);
    DrainConserves(s.engine, b, 0, error);
    var (_, o) := Drain(s.engine, b, 0, error);
    var x := w.(session := Some(Flushed(s, b, error)), outbound := Some(o));
    assert SameTeardown(w, x);
    RequestSame(w, x, Req.Write, ForFlush, rc);
    CallSame(w, Request(x, Req.Write, ForFlush, rc), [TlsProcess]);
  }

  lemma FinishSame(w: World)
    ensures SameTeardown(w, FinishStep(w)) && FinishStep(w).activity == w.activity
  {
  }

  lemma PopClose(w: World)
    requires w.stack != []
    ensures SameTeardown(AfterCloseImpl(w, false), AfterCloseImpl(Pop(w), false))
    ensures AfterCloseImpl(Pop(w), false).activity == w.activity && SameTeardown(w, Pop(w))
    ensures Pop(w).activity == w.activity
  {
  }

  /** `tlsProcess` touches the teardown only by closing. */
  lemma TlsTeardown(w: World, error: ErrorClass, rc: int)
    requires Enabled(w, RunTls(error, rc))
    ensures var v := TlsStep(w, error, rc);
            && v.activity == w.activity
            && (SameTeardown(w, v) || SameTeardown(AfterCloseImpl(w, false), v))
  {
    hide FlushStep, FinishStep, AfterCloseImpl;
    PopClose(w);
    FlushSame(Pop(w), error, rc);
    FinishSame(Pop(w));
  }

  lemma KeepsInv(w: World, v: World)
    requires Closes(w) && Tables(w) && SameTeardown(w, v)
    requires ActivityAllowed(w, v)
    ensures Closes(v) && Tables(v)
  {
  }

  lemma CloseKeepsInv(w: World, fromParent: bool)
    requires Closes(w) && Tables(w)
    ensures var v := AfterCloseImpl(w, fromParent); Closes(v) && Tables(v) && v.closing && v.activity == w.activity
  {
    hide Since;
  }

  lemma SinceSnoc(listeners: seq<nat>, cleared: Option<nat>, registered: nat)
    requires Since(listeners, cleared, registered)
    ensures Since(listeners + [registered], cleared, registered + 1)
    ensures Since(listeners, cleared, registered + 1)
  {
  }

  lemma ListenKeepsInv(w: World, onTcp: bool)
    requires Closes(w) && Tables(w)
    ensures Closes(DoListen(w, onTcp)) && Tables(DoListen(w, onTcp))
  {
    hide Since;
    SinceSnoc(w.sslListeners, w.sslCleared, w.registered);
    SinceSnoc(w.tcpListeners, w.tcpCleared, w.registered);
  }

  /** The close callback's own stages. */
  lemma ClosingKeepsInv(w: World, l: Label)
    requires Closes(w) && Tables(w) && Enabled(w, l)
    requires l.RunHook? || l.RunSslOffAll? || l.RunTcpOffAll? || l.CloseCallback?
    ensures Closes(Step(w, l)) && Tables(Step(w, l))
  {
  }

  lemma ConnectDoneKeepsInv(w: World, id: nat, status: int, pair: bool, hello: Answer)
    requires Closes(w) && Tables(w) && Enabled(w, ConnectDone(id, status, pair, hello))
    ensures var v := ConnectResult(w, id, status, pair, hello); Closes(v) && Tables(v)
  {
    hide Since, AfterBegin, Shaken, Call, Closes, Tables, SameTeardown;
    var x := w.(tcp := Req.Complete(w.tcp, id, status), activity := Completing(id));
    CompletionKeepsInv(w, id, status);
    var v := ConnectResult(w, id, status, pair, hello);
    ResultSame(w, id, status, pair, hello);
    KeepsInv(x, v);
  }

  lemma ResultSame(w: World, id: nat, status: int, pair: bool, hello: Answer)
    requires Enabled(w, ConnectDone(id, status, pair, hello))
    ensures var x := w.(tcp := Req.Complete(w.tcp, id, status), activity := Completing(id));
            var v := ConnectResult(w, id, status, pair, hello);
            SameTeardown(x, v) && v.activity == x.activity
  {
    hide AfterBegin, Shaken, Req.Complete;
  }

  lemma CompletionKeepsInv(w: World, id: nat, status: int)
    requires Closes(w) && Tables(w) && Quiet(w) && Req.Enabled(w.tcp, Req.DoComplete(id, status))
    ensures var x := w.(tcp := Req.Complete(w.tcp, id, status), activity := Completing(id)); Closes(x) && Tables(x)
  {
    hide Since;
  }

  lemma WriteDoneKeepsInv(w: World, id: nat, status: int)
    requires Closes(w) && Tables(w) && Enabled(w, WriteDone(id, status))
    ensures Closes(Step(w, WriteDone(id, status))) && Tables(Step(w, WriteDone(id, status)))
  {
    hide Since, Call, Closes, Tables, SameTeardown;
    var x := w.(tcp := Req.Complete(w.tcp, id, status), activity := Completing(id));
    CompletionKeepsInv(w, id, status);
    SameRefl(x);
    CallSame(x, x, [if w.purposes[id].ForFlush? then TlsProcess else User]);
    KeepsInv(x, Step(w, WriteDone(id, status)));
  }

  lemma SameRefl(w: World)
    ensures SameTeardown(w, w)
  {
  }

  /** The handle's own initialisation and close, and the end of a completion. */
  lemma HandleKeepsInv(w: World, l: Label)
    requires Inv(w) && Enabled(w, l)
    requires l.InitTcp? || l.CloseTcp? || l.RunFinish?
    ensures Closes(Step(w, l)) && Tables(Step(w, l))
  {
    hide Since;
    assert Req.OwnerTracksHandle(w.tcp);
  }

  lemma StepTeardown(w: World, l: Label)
    requires Inv(w) && Enabled(w, l)
    ensures Closes(Step(w, l)) && Tables(Step(w, l))
  {
    hide Drain, NextOutbound, UnwrapEngine, WriteData, Flushed, Written, AfterBegin, AfterShutdown, Shaken,
         Closes, Tables, SameTeardown, AfterCloseImpl, TlsStep, DecryptStep, DoWrite, DoListen, HookStep, Req.Inv,
         ConnectResult;
    var v := Step(w, l);
    if Plain(l) {
      PlainStep(w, l);
      KeepsInv(w, v);
    } else if l.RunTls? {
      TlsTeardown(w, l.flushError, l.flushRc);
      CloseKeepsInv(w, false);
      if SameTeardown(w, v) {
        KeepsInv(w, v);
      } else {
        KeepsInv(AfterCloseImpl(w, false), v);
      }
    } else if l.Close? {
      CloseKeepsInv(w, false);
    } else if l.RunErrorClose? {
      ErrorCloseKeepsInv(w);
    } else if l.Listen? {
      ListenKeepsInv(w, l.onTcp);
    } else if l.RunHook? || l.RunSslOffAll? || l.RunTcpOffAll? || l.CloseCallback? {
      ClosingKeepsInv(w, l);
    } else if l.ConnectDone? {
      ConnectDoneKeepsInv(w, l.id, l.status, l.pair, l.hello);
    } else if l.WriteDone? {
      WriteDoneKeepsInv(w, l.id, l.status);
    } else {
      HandleKeepsInv(w, l);
    }
  }

  lemma ErrorCloseKeepsInv(w: World)
    requires Closes(w) && Tables(w) && w.activity.ReadFailed?
    ensures var v := AfterCloseImpl(w.(activity := Idle), false); Closes(v) && Tables(v)
  {
    KeepsInv(w, w.(activity := Idle));
    CloseKeepsInv(w.(activity := Idle), false);
  }

  /** What a step does to the parent's handle and requests is one of the parent's own steps. */
  lemma TlsRequests(w: World, error: ErrorClass, rc: int)
    requires Enabled(w, RunTls(error, rc))
    ensures TlsStep(w, error, rc).tcp in
              {w.tcp, Req.Submit(w.tcp, Req.Request(Req.Write, true), rc), Req.AfterClose(w.tcp)}
  {
    hide Drain, NextOutbound, Flushed, Req.Submit, Req.AfterClose;
  }

  lemma StepTcp(w: World, l: Label)
    requires Enabled(w, l) && !l.RunTls?
    ensures Step(w, l).tcp == (match l
              case InitTcp(rc) => Req.AfterInit(w.tcp, rc)
              case Connect(_, rc) => Req.Submit(w.tcp, Req.Request(Req.Connect, true), rc)
              case Write(_, _, rc) => Req.Submit(w.tcp, Req.Request(Req.Write, true), rc)
              case Close => if w.closing then w.tcp else Req.AfterClose(w.tcp)
              case RunErrorClose => if w.closing then w.tcp else Req.AfterClose(w.tcp)
              case CloseTcp => Req.AfterClose(w.tcp)
              case RunFinish => Req.Finish(w.tcp, w.activity.id)
              case RunTcpOffAll => Req.AfterCloseCallback(w.tcp)
              case ConnectDone(id, status, _, _) => Req.Complete(w.tcp, id, status)
              case WriteDone(id, status) => Req.Complete(w.tcp, id, status)
              case CloseCallback => Req.Step(w.tcp, Req.BeginCloseCallback)
              case _ => w.tcp)
  {
    hide UnwrapEngine, WriteData, Written, AfterBegin, AfterShutdown, Shaken,
         Req.Submit, Req.AfterClose, Req.Complete, Req.Finish, Req.AfterInit, Req.AfterCloseCallback;
  }

  /** What a step of the stack is for the parent: one of its own steps, or nothing. */
  function ParentLabel(w: World, l: Label): Option<Req.Label>
    requires Enabled(w, l)
  {
    match l
    case InitTcp(rc) => Some(Req.DoInit(rc))
    case Connect(_, rc) => Some(Req.DoSubmit(Req.Request(Req.Connect, true), rc))
    case Write(_, _, rc) => Some(Req.DoSubmit(Req.Request(Req.Write, true), rc))
    case Close => if w.closing then None else Some(Req.DoClose)
    case RunErrorClose => if w.closing then None else Some(Req.DoClose)
    case CloseTcp => Some(Req.DoClose)
    case RunTls(error, rc) =>
      var t := TlsStep(w, error, rc).tcp;
      if t == w.tcp then None
      else if t == Req.AfterClose(w.tcp) then Some(Req.DoClose)
      else Some(Req.DoSubmit(Req.Request(Req.Write, true), rc))
    case RunFinish => Some(Req.DoFinish(w.activity.id))
    case RunTcpOffAll => Some(Req.EndCloseCallback)
    case ConnectDone(id, status, _, _) => Some(Req.DoComplete(id, status))
    case WriteDone(id, status) => Some(Req.DoComplete(id, status))
    case CloseCallback => Some(Req.BeginCloseCallback)
    case _ => None
  }

  /** Every step of the stack is, for its parent, nothing or one of the parent's own enabled steps. */
  lemma ParentStep(w: World, l: Label)
    requires Closes(w) && Enabled(w, l)
    ensures match ParentLabel(w, l)
            case None => Step(w, l).tcp == w.tcp
            case Some(p) => Req.Enabled(w.tcp, p) && Step(w, l).tcp == Req.Step(w.tcp, p)
  {
    hide Step, TlsStep, Closes, Req.Enabled,
         Req.Submit, Req.AfterClose, Req.Complete, Req.Finish, Req.AfterInit, Req.AfterCloseCallback;
    if l.RunTls? {
      TlsParentStep(w, l);
    } else {
      StepTcp(w, l);
      if ParentLabel(w, l).Some? {
        ParentEnabled(w, l);
      }
    }
  }

  lemma ParentEnabled(w: World, l: Label)
    requires Closes(w) && Enabled(w, l) && !l.RunTls? && ParentLabel(w, l).Some?
    ensures Req.Enabled(w.tcp, ParentLabel(w, l).value)
  {
  }

  lemma TlsParentStep(w: World, l: Label)
    requires Enabled(w, l) && l.RunTls?
    ensures match ParentLabel(w, l)
            case None => Step(w, l).tcp == w.tcp
            case Some(p) => Req.Enabled(w.tcp, p) && Step(w, l).tcp == Req.Step(w.tcp, p)
  {
    hide Step, TlsStep, Req.Submit, Req.AfterClose;
    TlsRequests(w, l.flushError, l.flushRc);
    TlsIsStep(w, l);
  }

  lemma StepRequests(w: World, l: Label)
    requires Inv(w) && Enabled(w, l)
    ensures Req.Inv(Step(w, l).tcp)
  {
    hide Step, Enabled, Tables, Req.Inv, Req.Step, Req.Enabled, ParentLabel;
    ParentStep(w, l);
    if ParentLabel(w, l).Some? {
      Req.StepInv(w.tcp, ParentLabel(w, l).value);
    }
  }

  lemma TlsIsStep(w: World, l: Label)
    requires Enabled(w, l) && l.RunTls?
    ensures Step(w, l) == TlsStep(w, l.flushError, l.flushRc)
  {
    hide TlsStep;
  }

  lemma StartInv()
    ensures Inv(START)
  {
    var t := START.tcp;
    forall id: nat ensures !Req.Delivered(t, id) && !Req.RefusedWrite(t, id) {}
  }

  lemma {:induction false} RunInv(w: World, ls: seq<Label>)
    requires Inv(w) && Valid(w, ls)
    ensures Inv(Run(w, ls))
    decreases ls
  {
    hide Step, Enabled, Req.Inv, Closes, Tables;
    if ls != [] {
      StepRequests(w, ls[0]);
      StepTeardown(w, ls[0]);
      RunInv(Step(w, ls[0]), ls[1..]);
    }
  }

  lemma ReachableInv(w: World)
    requires Reachable(w)
    ensures Inv(w)
  {
    hide Inv;
    var ls :| Reaches(ls, w);
    StartInv();
    RunInv(START, ls);
  }

  /** The parent's side of a run of the stack. */
  function ParentLabels(w: World, ls: seq<Label>): seq<Req.Label>
    requires Valid(w, ls)
    decreases ls
  {
    if ls == [] then []
    else
      (match ParentLabel(w, ls[0]) case None => [] case Some(p) => [p]) + ParentLabels(Step(w, ls[0]), ls[1..])
  }

  lemma {:induction false} ParentRuns(w: World, ls: seq<Label>)
    requires Inv(w) && Valid(w, ls)
    ensures Req.Valid(w.tcp, ParentLabels(w, ls))
    ensures Req.Run(w.tcp, ParentLabels(w, ls)) == Run(w, ls).tcp
    decreases ls
  {
    hide Step, Enabled, Req.Inv, Closes, Tables, Req.Step, Req.Enabled, ParentLabel;
    if ls != [] {
      var v, rest := Step(w, ls[0]), ParentLabels(Step(w, ls[0]), ls[1..]);
      ParentStep(w, ls[0]);
      StepRequests(w, ls[0]);
      StepTeardown(w, ls[0]);
      ParentRuns(v, ls[1..]);
      match ParentLabel(w, ls[0]) {
        case None => assert [] + rest == rest;
        case Some(p) => Req.RunCons(w.tcp, p, rest);
      }
    }
  }

  /**
   * The stack refines its parent: whatever the TLS socket and the user do, the TCP socket under them
   * goes through one of its own runs, so everything proved of those holds under TLS.
   */
  lemma StackRefinesParent(w: World) returns (ps: seq<Req.Label>)
    requires Reachable(w)
    ensures Req.Valid(Req.CREATED, ps) && Req.Run(Req.CREATED, ps) == w.tcp
  {
    var ls :| Reaches(ls, w);
    StartInv();
    ParentRuns(START, ls);
    ps := ParentLabels(START, ls);
  }

  /**
   * Over every run the SSL socket closes its parent at most once, libuv is asked to close the handle
   * at most once, and each socket emits CloseEvent at most once; the SSL socket's is emitted inside
   * the parent's, and never before it has marked itself closing.
   */
  lemma CloseOnce(w: World)
    requires Reachable(w)
    ensures && w.parentCloses <= 1 && w.tcp.uvCloses <= 1
            && w.tcpCloseEvents <= 1 && w.sslCloseEvents <= w.tcpCloseEvents
            && (w.sslCloseEvents == 1 ==> w.closing && InCallback(w))
            && (w.tcp.phase.Closed? ==> w.tcpCloseEvents == 1 && w.sslCloseEvents == 1)
  {
    ReachableInv(w);
  }

  /** A library-made strong reference to the SSL socket held by the TCP socket or its requests. */
  predicate HoldsSsl(w: World) {
    w.hooks != {} || w.tcp.inflight != {} || w.tcp.publishing != {}
  }

  /**
   * After the close callback: both sockets' listeners of before their clearing are gone, nothing the
   * library made leads from the TCP socket to the SSL socket, and the handle no longer owns its socket.
   * The request references are all deleted too if and only if libuv refused no write.
   */
  lemma TornDown(w: World)
    requires Reachable(w) && w.tcp.phase.Closed?
    ensures && w.sslCleared.Some? && w.tcpCleared.Some?
            && (forall i :: 0 <= i < |w.sslListeners| ==> w.sslListeners[i] >= w.sslCleared.value)
            && (forall i :: 0 <= i < |w.tcpListeners| ==> w.tcpListeners[i] >= w.tcpCleared.value)
            && !HoldsSsl(w) && !w.tcp.owner
            && (w.tcp.live == {} <==> Req.NoRefusedWrite(w.tcp))
  {
    ReachableInv(w);
    var t := w.tcp;
    if Req.NoRefusedWrite(t) {
      forall id: nat ensures id !in t.live {
        assert !Req.RefusedWrite(t, id);
      }
    } else {
      var id: nat :| Req.RefusedWrite(t, id);
      assert id in t.live;
    }
  }

  /** While a callback from libuv into the TCP socket is running, the handle's owner is set. */
  lemma OwnerInCallbacks(w: World, l: Label)
    requires Reachable(w) && Enabled(w, l)
    requires l.ConnectDone? || l.WriteDone? || l.ParentRead? || l.ParentReadError? || l.CloseCallback?
             || l.RunHook? || l.RunSslOffAll? || l.RunTcpOffAll?
    ensures w.tcp.owner
  {
    hide Reachable;
    ReachableInv(w);
  }
}
