/**
 * What every run of the stack keeps about bytes: outbound, the engine's output goes to parent writes
 * in order; inbound, the plaintext goes to the user in order.
 */
module TlsStackAccount {
  import opened Prelude
  import opened Buffers
  import opened Engine
  import opened SslSocket
  import opened TlsStack
  import Req = TcpRequests

  /** The account of one engine: outbound exactly, the windows of failed writes apart; inbound exactly. */
  predicate Balanced(s: Session) {
    && s.genuine + s.engine.bioOut == s.engine.produced
    && |s.handed| == |s.genuine| + s.stale
    && (s.stale == 0 ==> s.handed == s.genuine)
    && s.emitted + s.engine.record == s.engine.plaintext
  }

  predicate Account(w: World) {
    w.session.Some? ==> Balanced(w.session.value)
  }

  /** Moving `window` from the front of what is pending to the end of what was handed over. */
  lemma HandOver(handed: seq<Byte>, window: seq<Byte>, rest: seq<Byte>, pending: seq<Byte>, produced: seq<Byte>)
    requires window + rest == pending && handed + pending == produced
    ensures (handed + window) + rest == produced
  {
    assert (handed + window) + rest == handed + (window + rest);
  }

  lemma FlushBalanced(s: Session, outbound: Buf, error: ErrorClass)
    requires Balanced(s) && outbound == outbound.Clear()
    ensures Balanced(Flushed(s, outbound, error))
  {
    hide Drain;
    DrainConserves(s.engine, outbound, 0, error);
    var (e, o) := Drain(s.engine, outbound, 0, error);
    HandOver(s.genuine, o.Window(), e.bioOut, s.engine.bioOut, s.engine.produced);
  }

  lemma WriteBalanced(w: World, a: Answer, error: ErrorClass, rc: int)
    requires Account(w) && Enabled(w, Write(a, error, rc))
    ensures Account(DoWrite(w, a, error, rc))
  {
    hide WriteData;
    var s, outbound := w.session.value, w.outbound.value.Clear();
    WriteConservesIff(s.engine, outbound, a, error);
    var (e, o) := WriteData(s.engine, outbound, a, error);
    var pending := s.engine.bioOut + a.out;
    assert s.genuine + pending == (s.genuine + s.engine.bioOut) + a.out;
    if a.rv >= 0 {
      HandOver(s.genuine, o.Window(), e.bioOut, pending, s.engine.produced + a.out);
    } else if |o.Window()| == 0 {
      assert s.handed + o.Window() == s.handed;
    }
  }

  /** The engine produces `more`: pending and produced grow alike. */
  lemma ProduceBalanced(s: Session, e: Tls, more: seq<Byte>, got: seq<Byte>, loaded: seq<Byte>)
    requires Balanced(s)
    requires e.bioOut == s.engine.bioOut + more && e.produced == s.engine.produced + more
    requires e.plaintext == s.engine.plaintext + loaded && s.engine.record + loaded == got + e.record
    ensures Balanced(s.(engine := e, emitted := s.emitted + got))
  {
    assert s.genuine + e.bioOut == (s.genuine + s.engine.bioOut) + more;
    assert (s.emitted + got) + e.record == s.emitted + (s.engine.record + loaded);
    assert s.emitted + (s.engine.record + loaded) == (s.emitted + s.engine.record) + loaded;
  }

  lemma DecryptBalanced(w: World, u: UnwrapAnswer)
    requires Account(w) && Enabled(w, RunDecrypt(u))
    ensures Account(DecryptStep(w, u))
  {
    hide UnwrapEngine;
    var s := w.session.value;
    UnwrapConserves(s.engine, w.activity.input, w.inbound, u);
    UnwrapOutbound(s.engine, w.activity.input, w.inbound, u);
    var (e, r, got) := UnwrapEngine(s.engine, w.activity.input, w.inbound, u);
    ProduceBalanced(s, e, Reply(s.engine, w.activity.input, w.inbound, u), got,
                    Loaded(s.engine, w.activity.input, w.inbound, u));
  }

  lemma DisconnectBalanced(w: World, a: Answer)
    requires Account(w) && w.session.Some?
    ensures Account(DoDisconnect(w, a))
  {
    var s := w.session.value;
    var e := AfterShutdown(s.engine, a);
    assert s.engine.record + [] == [] + e.record && s.engine.plaintext + [] == e.plaintext;
    assert s.emitted + [] == s.emitted;
    ProduceBalanced(s, e, a.out, [], []);
  }

  lemma NewBalanced(id: nat, pair: bool, hello: Answer)
    ensures Balanced(NewSession(id, pair, hello))
  {
    assert [] + hello.out == hello.out;
  }

  lemma TlsBalanced(w: World, error: ErrorClass, rc: int)
    requires Account(w) && Enabled(w, RunTls(error, rc))
    ensures Account(TlsStep(w, error, rc))
  {
    hide NextOutbound, Flushed, TlsStep;
    TlsSession(w, error, rc);
    if Status(w.session.value.engine).NeedWrap? {
      FlushBalanced(w.session.value, NextOutbound(w.outbound), error);
    }
  }

  lemma StepAccount(w: World, l: Label)
    requires Account(w) && Enabled(w, l)
    ensures Account(Step(w, l))
  {
    hide Drain, NextOutbound, UnwrapEngine, WriteData, Flushed, Written, Balanced, AfterBegin, AfterShutdown,
         TlsStep, DecryptStep, DoDisconnect, DoWrite;
    if l.Write? {
      WriteBalanced(w, l.a, l.error, l.rc);
    } else if l.Disconnect? {
      DisconnectBalanced(w, l.shut);
    } else if l.RunTls? {
      TlsBalanced(w, l.flushError, l.flushRc);
    } else if l.RunDecrypt? {
      DecryptBalanced(w, l.u);
    } else if l.ConnectDone? {
      NewBalanced(l.id, l.pair, l.hello);
    } else {
      assert Step(w, l).session == w.session;
    }
  }

  lemma {:induction false} RunAccount(w: World, ls: seq<Label>)
    requires Account(w) && Valid(w, ls)
    ensures Account(Run(w, ls))
    decreases ls
  {
    hide Step, Enabled, Account;
    if ls != [] {
      StepAccount(w, ls[0]);
      RunAccount(Step(w, ls[0]), ls[1..]);
    }
  }

  lemma ReachableAccount(w: World)
    requires Reachable(w)
    ensures Account(w)
  {
    hide Account;
    var ls :| Reaches(ls, w);
    assert Account(START) by { StartAccount(); }
    RunAccount(START, ls);
  }

  lemma StartAccount()
    ensures Account(START)
  {
  }

  /**
   * Outbound conservation in every reachable state: everything handed to parent writes but the windows of
   * failed writes, followed by what is still pending, is exactly what the engine produced, in order. With
   * those windows it is so exactly when they held no bytes.
   */
  lemma OutboundConservation(w: World)
    requires Reachable(w) && w.session.Some?
    ensures var s := w.session.value;
            && s.genuine + s.engine.bioOut == s.engine.produced
            && (s.handed + s.engine.bioOut == s.engine.produced <==> s.stale == 0)
  {
    ReachableAccount(w);
    var s := w.session.value;
    assert |s.handed + s.engine.bioOut| == |s.handed| + |s.engine.bioOut|;
  }

  /** A TLS write whose `SSL_write` fails while the outbound buffer has room. */
  predicate FailsWithRoom(w: World, l: Label) {
    l.Write? && l.a.rv < 0 && w.outbound.Some? && w.outbound.value.Capacity() > 0
  }

  lemma WriteStale(w: World, l: Label)
    requires Enabled(w, l) && l.Write?
    ensures var v := DoWrite(w, l.a, l.error, l.rc);
            v.session.Some?
            && v.session.value.stale >= w.session.value.stale
            && (v.session.value.stale > w.session.value.stale <==> FailsWithRoom(w, l))
  {
    hide WriteData, Req.Submit;
    WriteConservesIff(w.session.value.engine, w.outbound.value.Clear(), l.a, l.error);
  }

  /** Stale bytes come from nowhere else: a step adds some exactly when its `SSL_write` fails with room. */
  lemma StaleOnlyFromFailedWrite(w: World, l: Label)
    requires Enabled(w, l) && w.session.Some? && !(l.ConnectDone? && l.status == 0)
    ensures Step(w, l).session.Some?
    ensures Step(w, l).session.value.stale >= w.session.value.stale
    ensures Step(w, l).session.value.stale > w.session.value.stale <==> FailsWithRoom(w, l)
  {
    hide UnwrapEngine, AfterShutdown, DoWrite, TlsStep, WriteAnswer, UnwrapAnswerOk,
         Req.Submit, Req.Complete, Req.AfterClose, Req.AfterInit, Req.Finish;
    if l.Write? {
      WriteStale(w, l);
    } else if l.RunTls? {
      TlsSession(w, l.flushError, l.flushRc);
    } else if l.RunDecrypt? || l.Disconnect? {
    } else {
      assert Step(w, l).session == w.session;
    }
  }

  /** A TCP connect has succeeded, and a new engine begins with a clean account. */
  predicate NewEngineStep(l: Label) {
    l.ConnectDone? && l.status == 0
  }

  /** Whether a write failed with room since the current engine was made; `before` says so of `w`. */
  predicate WriteFailed(w: World, ls: seq<Label>, before: bool)
    requires Valid(w, ls)
    decreases ls
  {
    if ls == [] then before
    else WriteFailed(Step(w, ls[0]), ls[1..], !NewEngineStep(ls[0]) && (before || FailsWithRoom(w, ls[0])))
  }

  predicate StaleIff(w: World, failed: bool) {
    if w.session.Some? then w.session.value.stale > 0 <==> failed else !failed
  }

  lemma StepStale(w: World, l: Label, failed: bool)
    requires Enabled(w, l) && StaleIff(w, failed)
    ensures StaleIff(Step(w, l), !NewEngineStep(l) && (failed || FailsWithRoom(w, l)))
  {
    hide AfterBegin, DoWrite, DoDisconnect, TlsStep, DecryptStep, Req.Complete, Req.Submit, Req.AfterClose;
    if w.session.Some? && !NewEngineStep(l) {
      StaleOnlyFromFailedWrite(w, l);
    }
  }

  lemma {:induction false} RunStale(w: World, ls: seq<Label>, failed: bool)
    requires Valid(w, ls) && StaleIff(w, failed)
    ensures StaleIff(Run(w, ls), WriteFailed(w, ls, failed))
    decreases ls
  {
    hide Step, Enabled, StaleIff, FailsWithRoom;
    if ls != [] {
      StepStale(w, ls[0], failed);
      RunStale(Step(w, ls[0]), ls[1..], !NewEngineStep(ls[0]) && (failed || FailsWithRoom(w, ls[0])));
    }
  }

  /**
   * Read off the run itself: the outbound account balances at its end if and only if no TLS write of
   * the current engine failed inside `SSL_write` while the outbound buffer had room.
   */
  lemma ConservationIff(ls: seq<Label>, w: World)
    requires Reaches(ls, w) && w.session.Some?
    ensures var s := w.session.value;
            s.handed + s.engine.bioOut == s.engine.produced <==> !WriteFailed(START, ls, false)
  {
    hide WriteFailed, Run, Valid;
    assert Reachable(w);
    OutboundConservation(w);
    assert StaleIff(START, false);
    RunStale(START, ls, false);
  }

  /** Plaintext over every run: emitted, then the rest of the current record, is the decrypted stream. */
  lemma PlaintextPrefix(w: World)
    requires Reachable(w) && w.session.Some?
    ensures var s := w.session.value;
            s.emitted + s.engine.record == s.engine.plaintext && s.emitted <= s.engine.plaintext
  {
    ReachableAccount(w);
  }

  /**
   * Close follows flush: whenever `tlsProcess` is about to close the parent, everything the engine
   * produced, the close alert included, has been handed to a parent write, and nothing is pending.
   */
  lemma CloseFollowsFlushOnRuns(w: World, error: ErrorClass, rc: int)
    requires Reachable(w) && Enabled(w, RunTls(error, rc))
    ensures var s := w.session.value;
            Step(w, RunTls(error, rc)).parentCloses > w.parentCloses ==>
              && s.engine.state.StateClosing? && s.engine.bioOut == []
              && s.genuine == s.engine.produced
              && (s.handed == s.engine.produced <==> s.stale == 0)
  {
    hide Reachable, TlsStep;
    ReachableAccount(w);
    TlsSession(w, error, rc);
    var s := w.session.value;
    assert s.genuine + [] == s.genuine;
  }

  // ---- the flush when the parent refuses every write: one synchronous recursion ----

  /** `tlsProcess` has been called with room to hand something over. */
  predicate CalledWithRoom(w: World) {
    AtTop(w, TlsProcess) && w.session.Some? && NextOutbound(w.outbound).Capacity() > 0
  }

  /** ... and it will, while something is pending: the engine is not handshaked. */
  predicate Flushing(w: World) {
    CalledWithRoom(w) && !w.session.value.engine.state.StateHandshaked?
  }

  /** One refused round: as much as fits is handed over, and `tlsProcess` has been called again. */
  lemma RefusedRound(w: World, error: ErrorClass, rc: int)
    requires Flushing(w) && CanSubmit(w, rc) && rc != 0 && w.session.value.engine.bioOut != []
    ensures Enabled(w, RunTls(error, rc))
    ensures var v := TlsStep(w, error, rc);
            var c, n := NextOutbound(w.outbound).Capacity(), |w.session.value.engine.bioOut|;
            && Flushing(v) && v.stack == w.stack && v.tcp.phase == w.tcp.phase
            && NextOutbound(v.outbound).Capacity() == c
            && |v.session.value.engine.bioOut| == n - Min(c, n)
            && v.session.value.handed + v.session.value.engine.bioOut
               == w.session.value.handed + w.session.value.engine.bioOut
            && |v.tcp.requests| == |w.tcp.requests| + 1
  {
    hide Drain;
    var s := w.session.value;
    var b := NextOutbound(w.outbound);
    DrainConserves(s.engine, b, 0, error);
    var (e, o) := Drain(s.engine, b, 0, error);
    LengthOfRest(o.Window(), e.bioOut, s.engine.bioOut);
    Associative(s.handed, o.Window(), e.bioOut);
    assert w.stack[..|w.stack| - 1] + [TlsProcess] == w.stack;
  }

  lemma {:induction false} RefusedRounds(w: World, error: ErrorClass, rc: int)
    requires Flushing(w) && CanSubmit(w, rc) && rc != 0
    ensures var c, n := NextOutbound(w.outbound).Capacity(), |w.session.value.engine.bioOut|;
            var ls := Repeat(RunTls(error, rc), Writes(n, c));
            && Valid(w, ls)
            && (var v := Run(w, ls);
                && Flushing(v) && CanSubmit(v, rc) && v.session.value.engine.bioOut == []
                && v.session.value.handed == w.session.value.handed + w.session.value.engine.bioOut
                && |v.tcp.requests| == |w.tcp.requests| + Writes(n, c))
    decreases |w.session.value.engine.bioOut|
  {
    hide TlsStep, Drain, NextOutbound;
    var l := RunTls(error, rc);
    var s := w.session.value;
    var c, n := NextOutbound(w.outbound).Capacity(), |s.engine.bioOut|;
    if n == 0 {
      assert s.handed + [] == s.handed;
    } else {
      RefusedRound(w, error, rc);
      var v := TlsStep(w, error, rc);
      RefusedRounds(v, error, rc);
      var rest := Repeat(l, Writes(n - Min(c, n), c));
      assert Repeat(l, Writes(n, c)) == [l] + rest;
      RunCons(w, l, rest);
    }
  }

  /** The writes one call of `tlsProcess` makes before it finds nothing to wrap, every one being refused. */
  function RefusedWrites(w: World): nat
    requires CalledWithRoom(w)
  {
    var s := w.session.value;
    if s.engine.state.StateHandshaked? then 0
    else Writes(|s.engine.bioOut|, NextOutbound(w.outbound).Capacity())
  }

  /**
   * With n bytes pending, room for c and every write refused, the synchronous recursion runs through
   * exactly ceil(n / c) writes, none if the engine is handshaked, and the last call hands nothing over.
   * Nothing is left pending if and only if nothing was or the engine is not handshaked.
   */
  lemma RefusedFlush(w: World, error: ErrorClass, rc: int)
    requires CalledWithRoom(w) && CanSubmit(w, rc) && rc != 0
    ensures var l := RunTls(error, rc);
            var ls := Repeat(l, RefusedWrites(w));
            && Valid(w, ls)
            && (var s, v := w.session.value, Run(w, ls);
                && CalledWithRoom(v) && CanSubmit(v, rc)
                && (v.session.value.engine.bioOut == []
                    <==> s.engine.bioOut == [] || !s.engine.state.StateHandshaked?)
                && v.session.value.handed + v.session.value.engine.bioOut == s.handed + s.engine.bioOut
                && |v.tcp.requests| == |w.tcp.requests| + RefusedWrites(w)
                && TlsStep(v, error, rc).session == v.session
                && TlsStep(v, error, rc).tcp.requests == v.tcp.requests)
  {
    hide TlsStep, NextOutbound;
    var s := w.session.value;
    if !s.engine.state.StateHandshaked? {
      RefusedRounds(w, error, rc);
      assert s.handed + s.engine.bioOut + [] == s.handed + s.engine.bioOut;
    }
    LastCall(Run(w, Repeat(RunTls(error, rc), RefusedWrites(w))), error, rc);
  }

  lemma LastCall(w: World, error: ErrorClass, rc: int)
    requires Enabled(w, RunTls(error, rc)) && !Status(w.session.value.engine).NeedWrap?
    ensures TlsStep(w, error, rc).session == w.session && TlsStep(w, error, rc).tcp.requests == w.tcp.requests
  {
    hide FlushStep;
  }
}
