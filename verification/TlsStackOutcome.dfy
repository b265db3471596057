/**
 * The outcome of a TLS connect: its callback is called at most once, with success only after its own
 * engine reached the handshaked state, with an error only if the TCP connect failed. The callback may
 * itself write, read, disconnect or close, so `tlsProcess` can be re-entered while the stored callback
 * has been called and not yet been cleared.
 */
module TlsStackOutcome {
  import opened Prelude
  import opened Buffers
  import opened Engine
  import opened SslSocket
  import opened TlsStack
  import Req = TcpRequests

  // ---- the stack ----

  /** A frame that clears the stored callback belongs to the one stored, and there is only one. */
  predicate ClearsMatch(stack: seq<Frame>, stored: Option<nat>) {
    && (forall i :: 0 <= i < |stack| && stack[i].ClearConnect? ==> stored == Some(stack[i].n))
    && (forall i, j :: 0 <= i < j < |stack| ==> !(stack[i].ClearConnect? && stack[j].ClearConnect?))
  }

  /** `tlsProcess` is never called from below anything else. */
  predicate TlsOnTop(stack: seq<Frame>) {
    forall i :: 0 <= i < |stack| && stack[i].TlsProcess? ==> i == |stack| - 1
  }

  predicate Clearing(stack: seq<Frame>) {
    exists i :: 0 <= i < |stack| && stack[i].ClearConnect?
  }

  predicate Frames(stack: seq<Frame>, stored: Option<nat>, finished: bool) {
    && ClearsMatch(stack, stored)
    && TlsOnTop(stack)
    && (finished && stack != [] && stack[|stack| - 1].TlsProcess? ==> !Clearing(stack))
  }

  lemma PopFrames(stack: seq<Frame>, stored: Option<nat>, finished: bool, after: bool)
    requires stack != [] && Frames(stack, stored, finished)
    ensures var below := stack[..|stack| - 1];
            && Frames(below, stored, after)
            && (below != [] ==> !below[|below| - 1].TlsProcess?)
            && (stack[|stack| - 1].ClearConnect? ==> Frames(below, None, after) && !Clearing(below))
            && (Clearing(stack) <==> Clearing(below) || stack[|stack| - 1].ClearConnect?)
  {
    var below := stack[..|stack| - 1];
    forall i | 0 <= i < |below| ensures below[i] == stack[i] && !below[i].TlsProcess? {}
    if Clearing(stack) && !stack[|stack| - 1].ClearConnect? {
      var i :| 0 <= i < |stack| && stack[i].ClearConnect?;
      assert below[i].ClearConnect?;
    }
  }

  lemma PushFrame(stack: seq<Frame>, f: Frame, stored: Option<nat>, before: bool, after: bool)
    requires Frames(stack, stored, before) && (stack == [] || !stack[|stack| - 1].TlsProcess?)
    requires f.ClearConnect? ==> stored == Some(f.n) && !Clearing(stack)
    requires f.TlsProcess? && after ==> !Clearing(stack)
    ensures Frames(stack + [f], stored, after)
    ensures Clearing(stack + [f]) <==> Clearing(stack) || f.ClearConnect?
  {
    var s := stack + [f];
    assert s[|stack|] == f;
    forall i | 0 <= i < |stack| ensures s[i] == stack[i] && !s[i].TlsProcess? {}
    if Clearing(stack) {
      var i :| 0 <= i < |stack| && stack[i].ClearConnect?;
      assert s[i].ClearConnect?;
    }
  }

  // ---- who has been told what ----

  predicate Told(fired: seq<(nat, bool)>, n: nat) {
    exists i :: 0 <= i < |fired| && fired[i].0 == n
  }

  /** libuv reported that connect `n` failed, at once or later. */
  predicate ConnectFailed(t: Req.Tcp, n: nat) {
    exists i :: 0 <= i < |t.deliveries| && t.deliveries[i].id == n && t.deliveries[i].status != 0
  }

  predicate Awaited(w: World, n: nat) {
    n < |w.purposes| && w.purposes[n] == ForConnect(true) && n !in w.tcp.inflight
  }

  predicate Outcomes(w: World) {
    && (forall i, j :: 0 <= i < j < |w.fired| ==> w.fired[i].0 != w.fired[j].0)
    && (forall i :: 0 <= i < |w.fired| ==> Awaited(w, w.fired[i].0))
    && (forall i :: 0 <= i < |w.fired| && w.fired[i].1 ==> w.fired[i].0 in w.shaken)
    && (forall i :: 0 <= i < |w.fired| && !w.fired[i].1 ==> ConnectFailed(w.tcp, w.fired[i].0))
  }

  predicate Stored(w: World) {
    w.connectEvent.Some? ==>
      var n := w.connectEvent.value;
      && Awaited(w, n)
      && w.session.Some? && w.session.value.serial == n
      && (Told(w.fired, n) ==> Clearing(w.stack))
  }

  predicate FinishedNow(w: World) {
    w.session.Some? && w.session.value.engine.state.StateHandshaked?
  }

  predicate Engines(w: World) {
    && (FinishedNow(w) ==> w.session.value.serial in w.shaken)
    && (w.activity.Reading? || AtTop(w, TlsProcess) ==> w.session.Some?)
    && (forall n :: 0 <= n < |w.purposes| && !w.purposes[n].ForConnect? ==> w.session.Some?)
  }

  predicate Inv(w: World) {
    && |w.purposes| == |w.tcp.requests|
    && (forall id :: id in w.tcp.inflight ==> id < |w.purposes|)
    && Frames(w.stack, w.connectEvent, FinishedNow(w))
    && Outcomes(w)
    && Stored(w)
    && Engines(w)
  }

  /** Nothing the outcome depends on has changed, the stack and the activity apart. */
  predicate SameOutcome(w: World, v: World) {
    && v.tcp.requests == w.tcp.requests && v.tcp.inflight == w.tcp.inflight && v.tcp.deliveries == w.tcp.deliveries
    && v.purposes == w.purposes && v.session == w.session && v.connectEvent == w.connectEvent
    && v.fired == w.fired && v.shaken == w.shaken
  }

  /** Steps that only move the stack by user frames, or not at all. */
  predicate Indifferent(l: Label) {
    || l.InitTcp? || l.Read? || l.CancelRead? || l.SetOutbound? || l.Close? || l.CloseTcp? || l.Listen?
    || l.UserReturn? || l.RunEmitDisconnect? || l.RunFinish? || l.RunErrorClose?
    || l.RunHook? || l.RunSslOffAll? || l.RunTcpOffAll? || l.ParentRead? || l.ParentReadError? || l.CloseCallback?
  }

  function MovedStack(w: World, l: Label): seq<Frame>
    requires Enabled(w, l)
  {
    if l.UserReturn? then w.stack[..|w.stack| - 1]
    else if l.RunEmitDisconnect? then w.stack[..|w.stack| - 1] + [User]
    else if l.InitTcp? || l.RunHook? || l.RunSslOffAll? || l.ParentReadError? || l.CloseCallback? then w.stack + [User]
    else w.stack
  }

  lemma ClosingSame(w: World, fromParent: bool)
    ensures var v := AfterCloseImpl(w, fromParent);
            SameOutcome(w, v) && v.stack == w.stack && v.activity == w.activity
  {
  }

  lemma IndifferentStep(w: World, l: Label)
    requires Enabled(w, l) && Indifferent(l)
    ensures SameOutcome(w, Step(w, l)) && Step(w, l).stack == MovedStack(w, l)
    ensures Step(w, l).activity.Reading? ==> w.activity.Reading? || w.session.Some?
  {
    hide Step, SameOutcome, MovedStack, Enabled;
    if l.Close? || l.RunErrorClose? || l.RunHook? {
      CloseStep(w, l);
    } else if l.InitTcp? || l.CloseTcp? || l.RunFinish? || l.RunTcpOffAll? || l.CloseCallback? {
      HandleStep(w, l);
    } else if l.Read? || l.CancelRead? || l.SetOutbound? || l.Listen? {
      SettingStep(w, l);
    } else {
      MovingStep(w, l);
    }
  }

  lemma CloseStep(w: World, l: Label)
    requires Enabled(w, l) && (l.Close? || l.RunErrorClose? || l.RunHook?)
    ensures SameOutcome(w, Step(w, l)) && Step(w, l).stack == MovedStack(w, l)
    ensures Step(w, l).activity.Reading? ==> w.activity.Reading? || w.session.Some?
  {
    hide AfterCloseImpl;
    ClosingSame(w, false);
    ClosingSame(w, true);
    ClosingSame(w.(activity := Idle), false);
  }

  lemma SettingStep(w: World, l: Label)
    requires Enabled(w, l) && (l.Read? || l.CancelRead? || l.SetOutbound? || l.Listen?)
    ensures SameOutcome(w, Step(w, l)) && Step(w, l).stack == MovedStack(w, l)
    ensures Step(w, l).activity.Reading? ==> w.activity.Reading? || w.session.Some?
  {
  }

  lemma MovingStep(w: World, l: Label)
    requires Enabled(w, l)
    requires l.UserReturn? || l.RunEmitDisconnect? || l.RunSslOffAll? || l.ParentRead? || l.ParentReadError?
    ensures SameOutcome(w, Step(w, l)) && Step(w, l).stack == MovedStack(w, l)
    ensures Step(w, l).activity.Reading? ==> w.activity.Reading? || w.session.Some?
  {
  }

  lemma HandleStep(w: World, l: Label)
    requires Enabled(w, l) && Indifferent(l)
    requires l.InitTcp? || l.CloseTcp? || l.RunFinish? || l.RunTcpOffAll? || l.CloseCallback?
    ensures SameOutcome(w, Step(w, l)) && Step(w, l).stack == MovedStack(w, l)
    ensures Step(w, l).activity.Reading? ==> w.activity.Reading? || w.session.Some?
  {
  }

  lemma MovedFrames(w: World, l: Label)
    requires Enabled(w, l) && Indifferent(l) && Frames(w.stack, w.connectEvent, FinishedNow(w))
    ensures Frames(MovedStack(w, l), w.connectEvent, FinishedNow(w))
    ensures Clearing(MovedStack(w, l)) <==> Clearing(w.stack)
    ensures var s := MovedStack(w, l); s != [] && s[|s| - 1].TlsProcess? ==> AtTop(w, TlsProcess)
  {
    var fin := FinishedNow(w);
    if l.UserReturn? || l.RunEmitDisconnect? {
      PopFrames(w.stack, w.connectEvent, fin, fin);
      PushFrame(w.stack[..|w.stack| - 1], User, w.connectEvent, fin, fin);
    } else if MovedStack(w, l) != w.stack {
      PushFrame(w.stack, User, w.connectEvent, fin, fin);
    }
  }

  lemma IndifferentInv(w: World, l: Label)
    requires Inv(w) && Enabled(w, l) && Indifferent(l)
    ensures Inv(Step(w, l))
  {
    hide Step, Enabled, Frames, MovedStack;
    IndifferentStep(w, l);
    MovedFrames(w, l);
    SameInv(w, Step(w, l));
  }

  lemma SameInv(w: World, v: World)
    requires Inv(w) && SameOutcome(w, v) && Frames(v.stack, v.connectEvent, FinishedNow(v))
    requires Clearing(v.stack) <==> Clearing(w.stack)
    requires v.activity.Reading? || AtTop(v, TlsProcess) ==> v.session.Some?
    ensures Inv(v)
  {
    hide Frames;
    forall i | 0 <= i < |v.fired| && !v.fired[i].1 ensures ConnectFailed(v.tcp, v.fired[i].0) {
      assert ConnectFailed(w.tcp, v.fired[i].0);
    }
    forall i | 0 <= i < |v.fired| ensures Awaited(v, v.fired[i].0) {
      assert Awaited(w, v.fired[i].0);
    }
  }

  // ---- requests of the parent ----

  lemma FailedSnoc(t: Req.Tcp, u: Req.Tcp, n: nat)
    requires t.deliveries <= u.deliveries && ConnectFailed(t, n)
    ensures ConnectFailed(u, n)
  {
    var i :| 0 <= i < |t.deliveries| && t.deliveries[i].id == n && t.deliveries[i].status != 0;
    assert u.deliveries[i] == t.deliveries[i];
  }

  /** Another request of the parent, accepted or refused, is nobody's outcome yet. */
  lemma RequestInv(w: World, kind: Req.Kind, p: Purpose, rc: int)
    requires Inv(w) && (!p.ForConnect? ==> w.session.Some?)
    ensures Inv(Request(w, kind, p, rc))
    ensures var v := Request(w, kind, p, rc);
            && v.stack == w.stack && v.connectEvent == w.connectEvent && v.session == w.session
            && v.fired == w.fired && v.activity == w.activity && v.shaken == w.shaken
    ensures rc != 0 ==> ConnectFailed(Request(w, kind, p, rc).tcp, |w.purposes|)
    ensures rc != 0 ==> |w.purposes| !in Request(w, kind, p, rc).tcp.inflight
  {
    hide Frames;
    var v := Request(w, kind, p, rc);
    assert w.tcp.deliveries <= v.tcp.deliveries;
    forall i | 0 <= i < |v.fired| && !v.fired[i].1 ensures ConnectFailed(v.tcp, v.fired[i].0) {
      FailedSnoc(w.tcp, v.tcp, v.fired[i].0);
    }
    forall n | Awaited(w, n) ensures Awaited(v, n) {}
    if rc != 0 {
      assert v.tcp.deliveries[|w.tcp.deliveries|].id == |w.purposes|;
    }
  }

  /** Telling connect `n` its outcome, when it has not been told. */
  lemma TellInv(w: World, n: nat, ok: bool)
    requires Inv(w) && Awaited(w, n) && !Told(w.fired, n)
    requires ok ==> n in w.shaken
    requires !ok ==> ConnectFailed(w.tcp, n)
    ensures Outcomes(w.(fired := w.fired + [(n, ok)]))
    ensures forall m :: Told(w.fired + [(n, ok)], m) <==> Told(w.fired, m) || m == n
  {
    var f := w.fired + [(n, ok)];
    var v := w.(fired := f);
    assert f[|w.fired|] == (n, ok);
    forall i | 0 <= i < |w.fired| ensures f[i] == w.fired[i] {}
    forall i | 0 <= i < |f| ensures Awaited(v, f[i].0) {
      if i < |w.fired| { assert Awaited(w, w.fired[i].0); }
    }
    forall m ensures Told(f, m) <==> Told(w.fired, m) || m == n {
      if Told(w.fired, m) {
        var i :| 0 <= i < |w.fired| && w.fired[i].0 == m;
        assert f[i].0 == m;
      }
    }
  }

  lemma CallUserInv(w: World)
    requires Inv(w) && !AtTop(w, TlsProcess)
    ensures Inv(Call(w, [User]))
  {
    hide Frames, Outcomes;
    var v := Call(w, [User]);
    PushFrame(w.stack, User, w.connectEvent, FinishedNow(w), FinishedNow(w));
    OutcomesOnly(w, v);
  }

  lemma OutcomesOnly(w: World, v: World)
    requires Outcomes(w) && v.fired == w.fired && v.shaken == w.shaken && v.tcp == w.tcp && v.purposes == w.purposes
    ensures Outcomes(v)
  {
    forall i | 0 <= i < |v.fired| ensures Awaited(v, v.fired[i].0) {
      assert Awaited(w, w.fired[i].0);
    }
  }

  lemma NotTold(w: World, n: nat)
    requires Outcomes(w) && (n >= |w.purposes| || n in w.tcp.inflight)
    ensures !Told(w.fired, n)
  {
    forall i | 0 <= i < |w.fired| ensures w.fired[i].0 != n {
      assert Awaited(w, w.fired[i].0);
    }
  }

  /** A failed connect reports to its callback, if it has one. */
  lemma FailInv(w: World, n: nat)
    requires Inv(w) && Awaited(w, n) && !Told(w.fired, n) && ConnectFailed(w.tcp, n) && w.connectEvent != Some(n)
    ensures Inv(w.(fired := w.fired + [(n, false)]))
  {
    hide Frames, Outcomes;
    TellInv(w, n, false);
  }

  lemma ConnectInv(w: World, callback: bool, rc: int)
    requires Inv(w) && Enabled(w, Connect(callback, rc))
    ensures Inv(DoConnect(w, callback, rc))
  {
    hide Frames, Engines;
    var n := |w.purposes|;
    RequestInv(w, Req.Connect, ForConnect(callback), rc);
    var v := Request(w, Req.Connect, ForConnect(callback), rc);
    if rc != 0 {
      NotTold(w, n);
      if callback {
        FailInv(v, n);
        CallUserInv(v.(fired := v.fired + [(n, false)]));
      } else {
        CallUserInv(v);
      }
    }
  }

  // ---- the engine ----

  /** The session moves on without reaching the handshaked state. */
  lemma SessionInv(w: World, s: Session)
    requires Inv(w) && w.session.Some? && s.serial == w.session.value.serial
    requires s.engine.state.StateHandshaked? ==> FinishedNow(w)
    ensures Inv(w.(session := Some(s)))
  {
    var v := w.(session := Some(s));
    OutcomesOnly(w, v);
  }

  lemma WriteInv(w: World, a: Answer, error: ErrorClass, rc: int)
    requires Inv(w) && Enabled(w, Write(a, error, rc))
    ensures Inv(DoWrite(w, a, error, rc))
  {
    hide WriteData, Written, Inv, Request;
    WrittenState(w.session.value, w.outbound.value.Clear(), a, error);
    var s := Written(w.session.value, w.outbound.value.Clear(), a, error);
    var (_, o) := WriteData(w.session.value.engine, w.outbound.value.Clear(), a, error);
    SessionInv(w, s);
    var v := w.(session := Some(s), outbound := Some(o));
    OutboundInv(w.(session := Some(s)), Some(o));
    RequestInv(v, Req.Write, ForUser, rc);
    if rc != 0 {
      CallUserInv(Request(v, Req.Write, ForUser, rc));
    }
  }

  lemma OutboundInv(w: World, o: Option<Buf>)
    requires Inv(w)
    ensures Inv(w.(outbound := o))
  {
    hide Frames;
    OutcomesOnly(w, w.(outbound := o));
  }

  lemma WrittenState(s: Session, outbound: Buf, a: Answer, error: ErrorClass)
    requires outbound == outbound.Clear() && WriteAnswer(s.engine, a)
    ensures var t := Written(s, outbound, a, error);
            t.serial == s.serial && (t.engine.state == s.engine.state || t.engine.state.StateError?)
  {
    hide WriteData;
    WriteConservesIff(s.engine, outbound, a, error);
  }

  lemma FlushedState(s: Session, outbound: Buf, error: ErrorClass)
    requires outbound == outbound.Clear()
    ensures var t := Flushed(s, outbound, error);
            t.serial == s.serial && (t.engine.state == s.engine.state || t.engine.state.StateError?)
  {
    hide Drain;
    DrainConserves(s.engine, outbound, 0, error);
  }

  lemma PushInv(w: World, f: Frame, stored: Option<nat>)
    requires Inv(w) && !AtTop(w, TlsProcess) && stored == w.connectEvent
    requires f.EmitDisconnect? || (f.TlsProcess? && w.session.Some? && (FinishedNow(w) ==> !Clearing(w.stack)))
    ensures Inv(Call(w, [f]))
    ensures Clearing(Call(w, [f]).stack) <==> Clearing(w.stack)
  {
    hide Frames;
    PushFrame(w.stack, f, w.connectEvent, FinishedNow(w), FinishedNow(w));
    OutcomesOnly(w, Call(w, [f]));
  }

  lemma DisconnectInv(w: World, a: Answer)
    requires Inv(w) && Enabled(w, Disconnect(a))
    ensures Inv(DoDisconnect(w, a))
  {
    hide Inv;
    var s := w.session.value;
    var t := s.(engine := AfterShutdown(s.engine, a));
    SessionInv(w, t);
    var v := w.(session := Some(t), inbound := None, disconnects := w.disconnects + 1);
    InboundInv(w.(session := Some(t)));
    CountsInv(w.(session := Some(t), inbound := None), v.disconnects, v.disconnectEvents);
    CountsInv(v, v.disconnects, w.disconnectEvents + 1);
    if a.rv >= 0 {
      assert !FinishedNow(v);
      PushInv(v, EmitDisconnect, w.connectEvent);
      PushInv(Call(v, [EmitDisconnect]), TlsProcess, w.connectEvent);
      assert Call(Call(v, [EmitDisconnect]), [TlsProcess]) == Call(v, [EmitDisconnect, TlsProcess]) by {
        assert v.stack + [EmitDisconnect] + [TlsProcess] == v.stack + [EmitDisconnect, TlsProcess];
      }
    } else {
      CallUserInv(v.(disconnectEvents := w.disconnectEvents + 1));
    }
  }

  lemma CountsInv(w: World, calls: nat, events: nat)
    requires Inv(w)
    ensures Inv(w.(disconnects := calls, disconnectEvents := events))
  {
    hide Frames;
    OutcomesOnly(w, w.(disconnects := calls, disconnectEvents := events));
  }

  lemma InboundInv(w: World)
    requires Inv(w)
    ensures Inv(w.(inbound := None))
  {
    hide Frames;
    OutcomesOnly(w, w.(inbound := None));
  }

  // ---- tlsProcess ----

  lemma PopInv(w: World)
    requires Inv(w) && w.stack != [] && !Top(w).ClearConnect?
    ensures Inv(Pop(w)) && !AtTop(Pop(w), TlsProcess)
    ensures Clearing(Pop(w).stack) <==> Clearing(w.stack)
  {
    hide Frames;
    PopFrames(w.stack, w.connectEvent, FinishedNow(w), FinishedNow(w));
    OutcomesOnly(w, Pop(w));
  }

  lemma FlushInv(w: World, error: ErrorClass, rc: int)
    requires Inv(w) && w.session.Some? && !AtTop(w, TlsProcess) && !FinishedNow(w)
    ensures Inv(FlushStep(w, error, rc))
  {
    hide Drain, NextOutbound, Flushed, Request, Inv;
    var s := w.session.value;
    var b := NextOutbound(w.outbound);
    DrainConserves(s.engine, b, 0, error);
    FlushedState(s, b, error);
    var (_, o) := Drain(s.engine, b, 0, error);
    var t := Flushed(s, b, error);
    SessionInv(w, t);
    OutboundInv(w.(session := Some(t)), Some(o));
    var v := w.(session := Some(t), outbound := Some(o));
    if o.Remaining() != 0 {
      RequestInv(v, Req.Write, ForFlush, rc);
      if rc != 0 {
        PushInv(Request(v, Req.Write, ForFlush, rc), TlsProcess, w.connectEvent);
      }
    }
  }

  lemma FinishInv(w: World)
    requires Inv(w) && FinishedNow(w) && !Clearing(w.stack) && !AtTop(w, TlsProcess)
    ensures Inv(FinishStep(w))
  {
    hide Frames;
    if w.connectEvent.Some? {
      var n := w.connectEvent.value;
      TellInv(w, n, true);
      var v := FinishStep(w);
      PushFrame(w.stack, ClearConnect(n), w.connectEvent, true, true);
      PushFrame(w.stack + [ClearConnect(n)], User, w.connectEvent, true, true);
      assert v.stack == w.stack + [ClearConnect(n)] + [User];
      OutcomesOnly(w.(fired := w.fired + [(n, true)]), v);
    } else {
      OutcomesOnly(w, FinishStep(w));
    }
  }

  lemma CloseInv(w: World)
    requires Inv(w)
    ensures Inv(AfterCloseImpl(w, false))
  {
    hide Frames;
    var v := AfterCloseImpl(w, false);
    assert SameOutcome(w, v) && v.stack == w.stack && v.activity == w.activity;
    SameInv(w, v);
  }

  lemma TlsInv(w: World, error: ErrorClass, rc: int)
    requires Inv(w) && Enabled(w, RunTls(error, rc))
    ensures Inv(TlsStep(w, error, rc))
  {
    hide FlushStep, FinishStep, AfterCloseImpl, Outcomes, Stored, Engines;
    assert FinishedNow(w) ==> !Clearing(w.stack);
    PopInv(w);
    var v := Pop(w);
    match Status(w.session.value.engine) {
      case NeedWrap => FlushInv(v, error, rc);
      case Finished => FinishInv(v);
      case _ => CloseInv(v);
    }
  }

  lemma ClearInv(w: World)
    requires Inv(w) && Enabled(w, RunClearConnect)
    ensures Inv(Step(w, RunClearConnect))
  {
    hide Frames;
    PopFrames(w.stack, w.connectEvent, FinishedNow(w), FinishedNow(w));
    OutcomesOnly(w, Step(w, RunClearConnect));
  }

  lemma DecryptInv(w: World, u: UnwrapAnswer)
    requires Inv(w) && Enabled(w, RunDecrypt(u))
    ensures Inv(DecryptStep(w, u))
  {
    hide UnwrapEngine, UnwrapAnswerOk;
    var v := DecryptStep(w, u);
    if v.stack != [] {
      assert v.stack == [User];
    }
    forall i | 0 <= i < |v.fired| ensures Awaited(v, v.fired[i].0) {
      assert Awaited(w, w.fired[i].0);
    }
  }

  lemma ReadEndInv(w: World)
    requires Inv(w) && Enabled(w, RunReadEnd)
    ensures Inv(Step(w, RunReadEnd))
  {
    var v := Step(w, RunReadEnd);
    assert v.stack == [TlsProcess];
    OutcomesOnly(w, v);
  }

  // ---- completions ----

  lemma CompleteInv(w: World, id: nat, status: int)
    requires Inv(w) && Quiet(w) && Req.Enabled(w.tcp, Req.DoComplete(id, status)) && id < |w.purposes|
    ensures var v := w.(tcp := Req.Complete(w.tcp, id, status), activity := Completing(id));
            && Inv(v) && v.stack == [] && id !in v.tcp.inflight
            && (status != 0 ==> ConnectFailed(v.tcp, id))
  {
    var v := w.(tcp := Req.Complete(w.tcp, id, status), activity := Completing(id));
    assert w.tcp.deliveries <= v.tcp.deliveries;
    forall i | 0 <= i < |v.fired| && !v.fired[i].1 ensures ConnectFailed(v.tcp, v.fired[i].0) {
      FailedSnoc(w.tcp, v.tcp, v.fired[i].0);
    }
    forall i | 0 <= i < |v.fired| ensures Awaited(v, v.fired[i].0) {
      assert Awaited(w, w.fired[i].0);
    }
    assert v.tcp.deliveries[|w.tcp.deliveries|].id == id;
  }

  lemma WriteDoneInv(w: World, id: nat, status: int)
    requires Inv(w) && Enabled(w, WriteDone(id, status))
    ensures Inv(Step(w, WriteDone(id, status)))
  {
    hide Inv, Req.Complete;
    HasSession(w, id);
    CompleteInv(w, id, status);
    var v := w.(tcp := Req.Complete(w.tcp, id, status), activity := Completing(id));
    if w.purposes[id].ForFlush? {
      assert !Clearing(v.stack);
      PushInv(v, TlsProcess, v.connectEvent);
    } else {
      CallUserInv(v);
    }
  }

  lemma HasSession(w: World, id: nat)
    requires Inv(w) && id < |w.purposes| && !w.purposes[id].ForConnect?
    ensures w.session.Some?
  {
  }

  /** The TCP connect has succeeded: a new engine, and its callback is stored. */
  lemma NewEngineInv(w: World, id: nat, s: Session)
    requires Inv(w) && w.stack == [] && id < |w.purposes| && w.purposes[id].ForConnect? && id !in w.tcp.inflight
    requires !Told(w.fired, id) && s.serial == id
    ensures var stored := if w.purposes[id].callback then Some(id) else None;
            Inv(Call(w.(connectEvent := stored, session := Some(s), shaken := Shaken(w, s), arrived := [], lost := 0),
                     [TlsProcess]))
  {
    var stored := if w.purposes[id].callback then Some(id) else None;
    var v := Call(w.(connectEvent := stored, session := Some(s), shaken := Shaken(w, s), arrived := [], lost := 0),
                  [TlsProcess]);
    assert v.stack == [TlsProcess];
    forall i | 0 <= i < |v.fired| ensures Awaited(v, v.fired[i].0) {
      assert Awaited(w, w.fired[i].0);
    }
  }

  lemma ConnectDoneInv(w: World, id: nat, status: int, pair: bool, hello: Answer)
    requires Inv(w) && Enabled(w, ConnectDone(id, status, pair, hello))
    ensures Inv(ConnectResult(w, id, status, pair, hello))
  {
    hide Inv, Req.Complete, AfterBegin, Shaken;
    CompleteInv(w, id, status);
    var v := w.(tcp := Req.Complete(w.tcp, id, status), activity := Completing(id));
    PendingConnect(w, id);
    if status == 0 {
      NewEngineInv(v, id, NewSession(id, pair, hello));
      ShakenSame(w, v, NewSession(id, pair, hello));
    } else if w.purposes[id].callback {
      FailInv(v, id);
      CallUserInv(v.(fired := v.fired + [(id, false)]));
    } else {
      CallUserInv(v);
    }
  }

  lemma ShakenSame(w: World, v: World, s: Session)
    requires v.shaken == w.shaken
    ensures Shaken(v, s) == Shaken(w, s)
  {
  }

  lemma PendingConnect(w: World, id: nat)
    requires Inv(w) && id in w.tcp.inflight
    ensures !Told(w.fired, id) && w.connectEvent != Some(id)
  {
    NotTold(w, id);
  }

  lemma StepInv(w: World, l: Label)
    requires Inv(w) && Enabled(w, l)
    ensures Inv(Step(w, l))
  {
    hide Inv, DoConnect, DoWrite, DoDisconnect, TlsStep, DecryptStep, ConnectResult;
    if Indifferent(l) {
      IndifferentInv(w, l);
    } else {
      match l {
        case Connect(callback, rc) => ConnectInv(w, callback, rc);
        case Write(a, error, rc) => WriteInv(w, a, error, rc);
        case Disconnect(a) => DisconnectInv(w, a);
        case RunTls(error, rc) => TlsInv(w, error, rc);
        case RunClearConnect => ClearInv(w);
        case RunDecrypt(u) => DecryptInv(w, u);
        case RunReadEnd => ReadEndInv(w);
        case ConnectDone(id, status, pair, hello) => ConnectDoneInv(w, id, status, pair, hello);
        case WriteDone(id, status) => WriteDoneInv(w, id, status);
      }
    }
  }

  lemma {:induction false} RunInv(w: World, ls: seq<Label>)
    requires Inv(w) && Valid(w, ls)
    ensures Inv(Run(w, ls))
    decreases ls
  {
    hide Step, Enabled, Inv;
    if ls != [] {
      StepInv(w, ls[0]);
      RunInv(Step(w, ls[0]), ls[1..]);
    }
  }

  lemma ReachableInv(w: World)
    requires Reachable(w)
    ensures Inv(w)
  {
    hide Inv;
    var ls :| Reaches(ls, w);
    assert Inv(START) by { StartInv(); }
    RunInv(START, ls);
  }

  lemma StartInv()
    ensures Inv(START)
  {
  }

  /**
   * Over every run, whatever the callbacks do: connect `n`'s callback is called at most once; if with
   * success, connect `n`'s engine reached the handshaked state; if with an error, libuv reported that
   * its TCP connect failed; and while it is in flight it has not been called.
   */
  lemma ConnectOutcome(w: World, n: nat)
    requires Reachable(w)
    ensures && (forall i, j :: 0 <= i < |w.fired| && 0 <= j < |w.fired| ==>
                  (w.fired[i].0 == n && w.fired[j].0 == n ==> i == j))
            && ((n, true) in w.fired ==> n in w.shaken)
            && ((n, false) in w.fired ==> ConnectFailed(w.tcp, n))
            && (Told(w.fired, n) ==> n < |w.purposes| && w.purposes[n] == ForConnect(true) && n !in w.tcp.inflight)
  {
    ReachableInv(w);
    if Told(w.fired, n) {
      var i :| 0 <= i < |w.fired| && w.fired[i].0 == n;
      assert Awaited(w, w.fired[i].0);
    }
  }

  lemma OthersKeepShaken(w: World, l: Label)
    requires Enabled(w, l) && !l.RunDecrypt? && !l.ConnectDone?
    ensures Step(w, l).shaken == w.shaken
  {
    hide WriteData, Written, AfterShutdown, TlsStep, Req.Submit, Req.AfterClose, Req.Complete;
    if l.RunTls? {
      TlsSession(w, l.flushError, l.flushRc);
    }
  }

  /** A connect is only ever recorded as shaken by its own engine's handshake. */
  lemma ShakenByItsEngine(w: World, l: Label, n: nat)
    requires Enabled(w, l) && n !in w.shaken && n in Step(w, l).shaken
    ensures var v := Step(w, l);
            v.session.Some? && v.session.value.serial == n && v.session.value.engine.state.StateHandshaked?
  {
    hide UnwrapEngine, AfterBegin, TlsStep, DoWrite, DoDisconnect, Req.Complete;
    if !l.RunDecrypt? && !l.ConnectDone? {
      OthersKeepShaken(w, l);
    }
  }

  /**
   * A step that leaves the engine in the error state, a failed handshake first of all, tells no connect
   * callback anything; only the failure of a TCP connect does.
   */
  lemma ErrorTellsNobody(w: World, l: Label)
    requires Enabled(w, l) && Step(w, l).session.Some? && Step(w, l).session.value.engine.state.StateError?
    ensures Step(w, l).fired == w.fired || (l.Connect? && l.rc != 0) || (l.ConnectDone? && l.status != 0)
  {
    hide UnwrapEngine, AfterBegin, AfterShutdown, WriteData, Written, FlushStep, HookStep, DoListen,
         Req.Submit, Req.AfterClose, Req.Complete, Req.AfterInit, Req.Finish, Req.AfterCloseCallback;
    if l.RunTls? {
      FlushFires(Pop(w), l.flushError, l.flushRc);
    } else if Indifferent(l) {
      IndifferentFires(w, l);
    }
  }

  lemma IndifferentFires(w: World, l: Label)
    requires Enabled(w, l) && Indifferent(l)
    ensures Step(w, l).fired == w.fired
  {
    hide Step, Enabled, MovedStack;
    IndifferentStep(w, l);
  }

  lemma FlushFires(w: World, error: ErrorClass, rc: int)
    requires w.session.Some?
    ensures FlushStep(w, error, rc).fired == w.fired
  {
    hide Drain, NextOutbound, Flushed, Req.Submit;
  }

  /** `tlsProcess` and the decrypt loop never run without an engine. */
  lemma EngineThere(w: World)
    requires Reachable(w)
    ensures AtTop(w, TlsProcess) || w.activity.Reading? ==> w.session.Some?
  {
    ReachableInv(w);
  }
}
