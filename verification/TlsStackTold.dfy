/**
 * Who is told of a success: once the handshake of a connect is found finished, its callback has been
 * called if and only if there is one. A connect without a callback tells nobody.
 */
module TlsStackTold {
  import opened Prelude
  import opened Engine
  import opened SslSocket
  import opened TlsStack
  import opened TlsStackOutcome
  import Down = TlsStackTeardown
  import Req = TcpRequests

  /** The callback of the connect that made the current engine is stored, or has been called. */
  predicate StoredOrTold(w: World) {
    w.session.Some? ==>
      var n := w.session.value.serial;
      && n < |w.purposes| && w.purposes[n].ForConnect?
      && (w.purposes[n].callback ==> w.connectEvent == Some(n) || Told(w.fired, n))
  }

  /** What is about to be forgotten has been told. */
  predicate ClearsTold(w: World) {
    forall i :: 0 <= i < |w.stack| && w.stack[i].ClearConnect? ==> Told(w.fired, w.stack[i].n)
  }

  predicate Remembered(w: World) {
    StoredOrTold(w) && ClearsTold(w)
  }

  predicate SameSerial(w: World, v: World) {
    && (w.session.Some? <==> v.session.Some?)
    && (w.session.Some? ==> v.session.value.serial == w.session.value.serial)
  }

  /** Steps that only add: purposes, tellings, and frames that clear nothing. */
  predicate Grows(w: World, v: World) {
    && SameSerial(w, v) && v.connectEvent == w.connectEvent
    && w.purposes <= v.purposes && w.fired <= v.fired
    && (forall f :: f in v.stack && f.ClearConnect? ==> f in w.stack)
  }

  lemma ToldGrows(a: seq<(nat, bool)>, b: seq<(nat, bool)>, n: nat)
    requires a <= b && Told(a, n)
    ensures Told(b, n)
  {
    var i :| 0 <= i < |a| && a[i].0 == n;
    assert b[i] == a[i];
  }

  lemma GrowsRemembered(w: World, v: World)
    requires Remembered(w) && Grows(w, v)
    ensures Remembered(v)
  {
    if w.session.Some? && Told(w.fired, w.session.value.serial) {
      ToldGrows(w.fired, v.fired, w.session.value.serial);
    }
    forall i | 0 <= i < |v.stack| && v.stack[i].ClearConnect? ensures Told(v.fired, v.stack[i].n) {
      assert v.stack[i] in w.stack;
      var j :| 0 <= j < |w.stack| && w.stack[j] == v.stack[i];
      ToldGrows(w.fired, v.fired, v.stack[i].n);
    }
  }

  lemma MovedGrows(w: World, l: Label, f: Frame)
    requires Enabled(w, l) && f in MovedStack(w, l) && f.ClearConnect?
    ensures f in w.stack
  {
  }

  lemma IndifferentGrows(w: World, l: Label)
    requires Enabled(w, l) && Indifferent(l)
    ensures Grows(w, Step(w, l))
  {
    hide Step, Enabled, MovedStack;
    IndifferentStep(w, l);
    forall f | f in Step(w, l).stack && f.ClearConnect? ensures f in w.stack {
      MovedGrows(w, l, f);
    }
  }

  lemma WriteGrows(w: World, a: Answer, error: ErrorClass, rc: int)
    requires Enabled(w, Write(a, error, rc))
    ensures Grows(w, DoWrite(w, a, error, rc))
  {
    hide WriteData, Req.Submit;
    WriteConservesIff(w.session.value.engine, w.outbound.value.Clear(), a, error);
  }

  lemma ConnectGrows(w: World, callback: bool, rc: int)
    ensures Grows(w, DoConnect(w, callback, rc))
  {
    hide Req.Submit;
  }

  lemma DisconnectGrows(w: World, a: Answer)
    requires w.session.Some?
    ensures Grows(w, DoDisconnect(w, a))
  {
    hide AfterShutdown;
  }

  lemma FailureGrows(w: World, id: nat, status: int, pair: bool, hello: Answer)
    requires Enabled(w, ConnectDone(id, status, pair, hello)) && status != 0
    ensures Grows(w, ConnectResult(w, id, status, pair, hello))
  {
    hide Req.Complete;
  }

  lemma CallGrows(w: World, l: Label)
    requires Enabled(w, l)
    requires l.Connect? || l.Write? || l.Disconnect? || l.RunReadEnd? || l.WriteDone?
             || (l.ConnectDone? && l.status != 0)
    ensures Grows(w, Step(w, l))
  {
    hide DoWrite, DoConnect, DoDisconnect, ConnectResult, Req.Complete;
    match l {
      case Write(a, error, rc) => WriteGrows(w, a, error, rc);
      case Connect(callback, rc) => ConnectGrows(w, callback, rc);
      case Disconnect(a) => DisconnectGrows(w, a);
      case ConnectDone(id, status, pair, hello) => FailureGrows(w, id, status, pair, hello);
      case RunReadEnd =>
      case WriteDone(_, _) =>
    }
  }

  lemma DecryptGrows(w: World, u: UnwrapAnswer)
    requires Enabled(w, RunDecrypt(u))
    ensures Grows(w, DecryptStep(w, u))
  {
    hide UnwrapEngine;
  }

  lemma FlushGrows(w: World, error: ErrorClass, rc: int)
    requires w.session.Some?
    ensures Grows(w, FlushStep(w, error, rc))
  {
    hide Drain, NextOutbound, Req.Submit;
    DrainConserves(w.session.value.engine, NextOutbound(w.outbound), 0, error);
  }

  lemma PopGrows(w: World)
    requires w.stack != []
    ensures Grows(w, Pop(w))
  {
  }

  lemma CloseGrows(w: World)
    ensures Grows(w, AfterCloseImpl(w, false))
  {
    hide Req.AfterClose;
  }

  /** The stored callback is called, and its frame is the one that will forget it. */
  lemma FinishRemembers(w: World)
    requires Remembered(w)
    ensures Remembered(FinishStep(w))
    ensures w.connectEvent.Some? ==> Told(FinishStep(w).fired, w.connectEvent.value)
  {
    var v := FinishStep(w);
    if w.connectEvent.Some? {
      var n := w.connectEvent.value;
      assert v.fired[|w.fired|] == (n, true);
      if w.session.Some? && Told(w.fired, w.session.value.serial) {
        ToldGrows(w.fired, v.fired, w.session.value.serial);
      }
      forall i | 0 <= i < |v.stack| && v.stack[i].ClearConnect? ensures Told(v.fired, v.stack[i].n) {
        if i < |w.stack| {
          assert v.stack[i] == w.stack[i];
          ToldGrows(w.fired, v.fired, v.stack[i].n);
        }
      }
    }
  }

  lemma TlsRemembers(w: World, error: ErrorClass, rc: int)
    requires Remembered(w) && Enabled(w, RunTls(error, rc))
    ensures Remembered(TlsStep(w, error, rc))
  {
    hide FlushStep, FinishStep, AfterCloseImpl, Remembered, Grows;
    PopGrows(w);
    GrowsRemembered(w, Pop(w));
    match Status(w.session.value.engine) {
      case NeedWrap => FlushGrows(Pop(w), error, rc); GrowsRemembered(Pop(w), FlushStep(Pop(w), error, rc));
      case Finished => FinishRemembers(Pop(w));
      case ClosingStatus => CloseGrows(Pop(w)); GrowsRemembered(Pop(w), AfterCloseImpl(Pop(w), false));
      case _ =>
    }
  }

  /** What is forgotten is the callback that has been called. */
  lemma ClearRemembers(w: World)
    requires Inv(w) && Remembered(w) && Enabled(w, RunClearConnect)
    ensures Remembered(Step(w, RunClearConnect))
  {
    var v := Step(w, RunClearConnect);
    var n := Top(w).n;
    assert w.stack[|w.stack| - 1].ClearConnect? && w.connectEvent == Some(n);
    forall i | 0 <= i < |v.stack| ensures !v.stack[i].ClearConnect? {
      assert v.stack[i] == w.stack[i];
    }
  }

  lemma ConnectDoneRemembers(w: World, id: nat, pair: bool, hello: Answer)
    requires Enabled(w, ConnectDone(id, 0, pair, hello))
    ensures Remembered(ConnectResult(w, id, 0, pair, hello))
  {
    hide AfterBegin, Req.Complete;
  }

  lemma StepRemembers(w: World, l: Label)
    requires Inv(w) && Remembered(w) && Enabled(w, l)
    ensures Remembered(Step(w, l))
  {
    hide Inv, Remembered, Grows, TlsStep, DecryptStep, ConnectResult, DoConnect, DoWrite, DoDisconnect;
    if Indifferent(l) {
      IndifferentGrows(w, l);
      GrowsRemembered(w, Step(w, l));
    } else if l.RunTls? {
      TlsRemembers(w, l.flushError, l.flushRc);
    } else if l.RunClearConnect? {
      ClearRemembers(w);
    } else if l.RunDecrypt? {
      DecryptGrows(w, l.u);
      GrowsRemembered(w, DecryptStep(w, l.u));
    } else if l.ConnectDone? && l.status == 0 {
      ConnectDoneRemembers(w, l.id, l.pair, l.hello);
    } else {
      CallGrows(w, l);
      GrowsRemembered(w, Step(w, l));
    }
  }

  lemma {:induction false} RunRemembers(w: World, ls: seq<Label>)
    requires Inv(w) && Remembered(w) && Valid(w, ls)
    ensures Remembered(Run(w, ls))
    decreases ls
  {
    hide Step, Enabled, Inv, Remembered;
    if ls != [] {
      TlsStackOutcome.StepInv(w, ls[0]);
      StepRemembers(w, ls[0]);
      RunRemembers(Step(w, ls[0]), ls[1..]);
    }
  }

  lemma ReachableRemembers(w: World)
    requires Reachable(w)
    ensures Remembered(w)
  {
    hide Inv, Remembered;
    var ls :| Reaches(ls, w);
    TlsStackOutcome.StartInv();
    assert Remembered(START) by { StartRemembers(); }
    RunRemembers(START, ls);
  }

  lemma StartRemembers()
    ensures Remembered(START)
  {
  }

  /**
   * A call of `tlsProcess` that finds the handshake finished leaves the connect of that engine told if and
   * only if it was made with a callback; without one nobody is told. This call is the one that tells
   * exactly when the callback is still stored.
   */
  lemma NullConnectIsSilent(w: World, error: ErrorClass, rc: int)
    requires Reachable(w) && Enabled(w, RunTls(error, rc)) && Status(w.session.value.engine).Finished?
    ensures var v := Step(w, RunTls(error, rc));
            && v.session == w.session
            && w.session.value.serial < |v.purposes|
            && (Told(v.fired, w.session.value.serial) <==> v.purposes[w.session.value.serial] == ForConnect(true))
    ensures w.purposes[w.session.value.serial] == ForConnect(false) ==>
              Step(w, RunTls(error, rc)) == Pop(w).(handshaked := true)
    ensures AtTop(Step(w, RunTls(error, rc)), User) && Step(w, RunTls(error, rc)).fired != w.fired
            <==> w.connectEvent.Some?
  {
    hide Reachable;
    ReachableInv(w);
    ReachableRemembers(w);
    var n := w.session.value.serial;
    var v := Step(w, RunTls(error, rc));
    FinishRemembers(Pop(w));
    assert w.connectEvent.Some? ==> |v.fired| > |w.fired|;
    if Told(v.fired, n) {
      var i :| 0 <= i < |v.fired| && v.fired[i].0 == n;
      assert i < |w.fired| ==> Awaited(w, w.fired[i].0);
    } else if Told(w.fired, n) {
      ToldGrows(w.fired, v.fired, n);
    }
  }

  // ---- failures ----

  predicate FailureTold(w: World, n: nat) {
    exists i :: 0 <= i < |w.fired| && w.fired[i] == (n, false)
  }

  predicate HasFailed(w: World, n: nat) {
    n < |w.purposes| && w.purposes[n] == ForConnect(true) && ConnectFailed(w.tcp, n)
  }

  /** Every connect with a callback that libuv has reported failed has been told so. */
  ghost predicate FailuresTold(w: World) {
    forall n: nat :: HasFailed(w, n) ==> FailureTold(w, n)
  }

  lemma FailureToldGrows(w: World, v: World, n: nat)
    requires FailureTold(w, n) && w.fired <= v.fired
    ensures FailureTold(v, n)
  {
    var i :| 0 <= i < |w.fired| && w.fired[i] == (n, false);
    assert v.fired[i] == w.fired[i];
  }

  /** A step after which the failures of connects with a callback are the old ones. */
  ghost predicate NoNewFailure(w: World, v: World) {
    && w.fired <= v.fired
    && forall n: nat :: HasFailed(v, n) ==> HasFailed(w, n)
  }

  lemma NoNewFailureTold(w: World, v: World)
    requires FailuresTold(w) && NoNewFailure(w, v)
    ensures FailuresTold(v)
  {
    forall n: nat | HasFailed(v, n) ensures FailureTold(v, n) {
      FailureToldGrows(w, v, n);
    }
  }

  /** Nothing is delivered, or only for a request that is no connect with a callback. */
  lemma SameFailures(w: World, v: World)
    requires v.tcp.deliveries == w.tcp.deliveries && w.purposes <= v.purposes && w.fired <= v.fired
    requires |w.purposes| == |w.tcp.requests| && Req.DeliveredOnce(w.tcp)
    ensures NoNewFailure(w, v)
  {
    forall n: nat | HasFailed(v, n) ensures HasFailed(w, n) {
      var i :| 0 <= i < |v.tcp.deliveries| && v.tcp.deliveries[i].id == n && v.tcp.deliveries[i].status != 0;
      assert Req.Routed(w.tcp, w.tcp.deliveries[i]);
    }
  }

  lemma OneMoreDelivery(w: World, v: World, d: Req.Delivery)
    requires v.tcp.deliveries == w.tcp.deliveries + [d] && w.purposes <= v.purposes && w.fired <= v.fired
    requires |w.purposes| == |w.tcp.requests| && Req.DeliveredOnce(w.tcp) && FailuresTold(w)
    requires d.status != 0 && d.id < |v.purposes| && v.purposes[d.id] == ForConnect(true) ==> FailureTold(v, d.id)
    ensures FailuresTold(v)
  {
    forall n: nat | HasFailed(v, n) ensures FailureTold(v, n) {
      var i :| 0 <= i < |v.tcp.deliveries| && v.tcp.deliveries[i].id == n && v.tcp.deliveries[i].status != 0;
      if i < |w.tcp.deliveries| {
        assert Req.Routed(w.tcp, w.tcp.deliveries[i]);
        assert w.tcp.deliveries[i] == v.tcp.deliveries[i];
        assert HasFailed(w, n);
        FailureToldGrows(w, v, n);
      }
    }
  }

  lemma SubmitDelivers(t: Req.Tcp, r: Req.Request, rc: int)
    ensures var u := Req.Submit(t, r, rc);
            && (rc == 0 ==> u.deliveries == t.deliveries)
            && (rc != 0 ==>
                  u.deliveries
                  == t.deliveries + [Req.Delivery(|t.requests|, r, rc, true, Req.RefusalRoute(r.callback))])
  {
  }

  lemma ConnectTells(w: World, callback: bool, rc: int)
    requires |w.purposes| == |w.tcp.requests| && Req.DeliveredOnce(w.tcp) && FailuresTold(w)
    ensures FailuresTold(DoConnect(w, callback, rc))
  {
    hide Req.Submit, Req.DeliveredOnce, FailuresTold;
    var v := DoConnect(w, callback, rc);
    SubmitDelivers(w.tcp, Req.Request(Req.Connect, true), rc);
    if rc == 0 {
      SameFailures(w, v);
      NoNewFailureTold(w, v);
    } else {
      if callback {
        assert v.fired[|w.fired|] == (|w.tcp.requests|, false);
      }
      OneMoreDelivery(w, v, v.tcp.deliveries[|w.tcp.deliveries|]);
    }
  }

  /** A write submitted, by the user or by a flush. */
  lemma WriteTells(w: World, v: World, rc: int, p: Purpose)
    requires |w.purposes| == |w.tcp.requests| && Req.DeliveredOnce(w.tcp) && FailuresTold(w)
    requires v.tcp == Req.Submit(w.tcp, Req.Request(Req.Write, true), rc) && !p.ForConnect?
    requires v.purposes == w.purposes + [p] && v.fired == w.fired
    ensures FailuresTold(v)
  {
    hide Req.Submit, Req.DeliveredOnce, FailuresTold;
    SubmitDelivers(w.tcp, Req.Request(Req.Write, true), rc);
    if rc == 0 {
      SameFailures(w, v);
      NoNewFailureTold(w, v);
    } else {
      OneMoreDelivery(w, v, v.tcp.deliveries[|w.tcp.deliveries|]);
    }
  }

  lemma ResultTells(w: World, id: nat, status: int, pair: bool, hello: Answer)
    requires |w.purposes| == |w.tcp.requests| && Req.DeliveredOnce(w.tcp) && FailuresTold(w)
    requires Enabled(w, ConnectDone(id, status, pair, hello))
    ensures FailuresTold(ConnectResult(w, id, status, pair, hello))
  {
    hide Req.DeliveredOnce, FailuresTold, AfterBegin;
    var v := ConnectResult(w, id, status, pair, hello);
    if status != 0 && w.purposes[id].callback {
      assert v.fired[|w.fired|] == (id, false);
    }
    OneMoreDelivery(w, v, v.tcp.deliveries[|w.tcp.deliveries|]);
  }

  lemma CompletionTells(w: World, id: nat, status: int)
    requires |w.purposes| == |w.tcp.requests| && Req.DeliveredOnce(w.tcp) && FailuresTold(w)
    requires Enabled(w, WriteDone(id, status))
    ensures FailuresTold(Step(w, WriteDone(id, status)))
  {
    hide Req.DeliveredOnce, FailuresTold;
    var v := Step(w, WriteDone(id, status));
    OneMoreDelivery(w, v, v.tcp.deliveries[|w.tcp.deliveries|]);
  }

  lemma DoWriteTells(w: World, a: Answer, error: ErrorClass, rc: int)
    requires |w.purposes| == |w.tcp.requests| && Req.DeliveredOnce(w.tcp) && FailuresTold(w)
    requires Enabled(w, Write(a, error, rc))
    ensures FailuresTold(DoWrite(w, a, error, rc))
  {
    hide Req.Submit, Req.DeliveredOnce, FailuresTold, WriteData, Written;
    WriteTells(w, DoWrite(w, a, error, rc), rc, ForUser);
  }

  lemma FlushTells(w: World, error: ErrorClass, rc: int)
    requires |w.purposes| == |w.tcp.requests| && Req.DeliveredOnce(w.tcp) && FailuresTold(w) && w.session.Some?
    ensures FailuresTold(FlushStep(w, error, rc))
  {
    hide Req.Submit, Req.DeliveredOnce, FailuresTold, Drain, NextOutbound, Flushed;
    var v := FlushStep(w, error, rc);
    if v.tcp == w.tcp && v.purposes == w.purposes {
      SameFailures(w, v);
      NoNewFailureTold(w, v);
    } else {
      WriteTells(w, v, rc, ForFlush);
    }
  }

  /** Steps that deliver nothing. */
  lemma QuietTells(w: World, v: World)
    requires |w.purposes| == |w.tcp.requests| && Req.DeliveredOnce(w.tcp) && FailuresTold(w)
    requires v.tcp.deliveries == w.tcp.deliveries && v.purposes == w.purposes && w.fired <= v.fired
    ensures FailuresTold(v)
  {
    hide Req.DeliveredOnce, FailuresTold;
    SameFailures(w, v);
    NoNewFailureTold(w, v);
  }

  lemma FinishQuiet(w: World)
    ensures var v := FinishStep(w);
            v.tcp == w.tcp && v.purposes == w.purposes && w.fired <= v.fired
  {
  }

  lemma TlsTells(w: World, error: ErrorClass, rc: int)
    requires |w.purposes| == |w.tcp.requests| && Req.DeliveredOnce(w.tcp) && FailuresTold(w)
    requires Enabled(w, RunTls(error, rc))
    ensures FailuresTold(TlsStep(w, error, rc))
  {
    hide Req.DeliveredOnce, FailuresTold, FlushStep, FinishStep;
    QuietTells(w, Pop(w));
    match Status(w.session.value.engine) {
      case NeedWrap => FlushTells(Pop(w), error, rc);
      case Finished =>
        FinishQuiet(Pop(w));
        QuietTells(Pop(w), FinishStep(Pop(w)));
      case ClosingStatus => QuietTells(Pop(w), AfterCloseImpl(Pop(w), false));
      case _ =>
    }
  }

  lemma RestQuiet(w: World, l: Label)
    requires Enabled(w, l) && (l.Disconnect? || l.RunClearConnect? || l.RunDecrypt? || l.RunReadEnd?)
    ensures var v := Step(w, l);
            v.tcp == w.tcp && v.purposes == w.purposes && v.fired == w.fired
  {
    hide UnwrapEngine, AfterShutdown, Shaken;
  }

  lemma IndifferentQuiet(w: World, l: Label)
    requires Enabled(w, l) && Indifferent(l)
    ensures var v := Step(w, l);
            v.tcp.deliveries == w.tcp.deliveries && v.purposes == w.purposes && v.fired == w.fired
  {
    hide Step, Enabled, MovedStack;
    IndifferentStep(w, l);
  }

  lemma StepTells(w: World, l: Label)
    requires |w.purposes| == |w.tcp.requests| && Req.DeliveredOnce(w.tcp) && FailuresTold(w) && Enabled(w, l)
    ensures FailuresTold(Step(w, l))
  {
    hide Req.DeliveredOnce, FailuresTold, DoWrite, DoConnect, DoDisconnect, ConnectResult, TlsStep, DecryptStep;
    match l {
      case Connect(callback, rc) => ConnectTells(w, callback, rc);
      case Write(a, error, rc) => DoWriteTells(w, a, error, rc);
      case ConnectDone(id, status, pair, hello) => ResultTells(w, id, status, pair, hello);
      case WriteDone(id, status) => CompletionTells(w, id, status);
      case RunTls(error, rc) => TlsTells(w, error, rc);
      case _ =>
        if Indifferent(l) {
          IndifferentQuiet(w, l);
        } else {
          RestQuiet(w, l);
        }
        QuietTells(w, Step(w, l));
    }
  }

  lemma {:induction false} RunTells(w: World, ls: seq<Label>)
    requires Inv(w) && Down.Inv(w) && FailuresTold(w) && Valid(w, ls)
    ensures FailuresTold(Run(w, ls))
    decreases ls
  {
    hide Step, Enabled, Inv, Down.Inv, FailuresTold, Req.DeliveredOnce;
    if ls != [] {
      InvFacts(w);
      TlsStackOutcome.StepInv(w, ls[0]);
      DownStep(w, ls[0]);
      StepTells(w, ls[0]);
      RunTells(Step(w, ls[0]), ls[1..]);
    }
  }

  lemma DownStep(w: World, l: Label)
    requires Down.Inv(w) && Enabled(w, l)
    ensures Down.Inv(Step(w, l))
  {
    hide Step, Enabled, Req.Inv, Down.Closes, Down.Tables;
    Down.StepRequests(w, l);
    Down.StepTeardown(w, l);
  }

  lemma InvFacts(w: World)
    requires Inv(w) && Down.Inv(w)
    ensures |w.purposes| == |w.tcp.requests| && Req.DeliveredOnce(w.tcp)
  {
  }

  /**
   * The callback of a connect is told of an error exactly when there is one and libuv has reported, at once
   * or later, that its TCP connect failed.
   */
  lemma FailureToldIff(w: World, n: nat)
    requires Reachable(w)
    ensures (n, false) in w.fired
            <==> n < |w.purposes| && w.purposes[n] == ForConnect(true) && ConnectFailed(w.tcp, n)
  {
    hide Inv, Down.Inv;
    var ls :| Reaches(ls, w);
    TlsStackOutcome.StartInv();
    Down.StartInv();
    assert FailuresTold(START) by { StartTells(); }
    RunTells(START, ls);
    ConnectOutcome(w, n);
    assert (n, false) in w.fired ==> Told(w.fired, n);
    assert HasFailed(w, n) ==> FailureTold(w, n);
  }

  lemma StartTells()
    ensures FailuresTold(START)
  {
  }
}
