/**
 * The machine's `tlsProcess` is the object's: the steps the stack takes from a call of `tlsProcess` until
 * that call has returned, user callbacks returning at once, compute `SslSocket.Pump`, which is what
 * `SslSocketImpl.TlsProcess` promises. A refused write recurses in one and pushes a frame in the other.
 */
module TlsStackPump {
  import opened Prelude
  import opened Engine
  import opened SslSocket
  import opened TlsStack
  import Req = TcpRequests

  /** The connect callbacks called with success. */
  function Successes(fired: seq<(nat, bool)>): seq<nat> {
    if fired == [] then [] else (if fired[0].1 then [fired[0].0] else []) + Successes(fired[1..])
  }

  lemma {:induction false} SuccessesSnoc(fired: seq<(nat, bool)>, n: nat)
    ensures Successes(fired + [(n, true)]) == Successes(fired) + [n]
  {
    if fired == [] {
      assert (fired + [(n, true)])[1..] == [];
    } else {
      SuccessesSnoc(fired[1..], n);
      assert (fired + [(n, true)])[1..] == fired[1..] + [(n, true)];
    }
  }

  /** The TLS socket alone, as part of the stack. */
  predicate Shows(w: World, s: Ssl) {
    && w.session.Some? && s.engine == w.session.value.engine && Concat(s.writes) == w.session.value.handed
    && s.outbound == w.outbound && s.reading == w.inbound.Some?
    && s.connectEvent == w.connectEvent && s.handshaked == w.handshaked && s.closing == w.closing
    && s.parentCloses == w.parentCloses && s.fired == Successes(w.fired)
  }

  predicate Submits(s: Ssl, t: Ssl) {
    |t.writes| > |s.writes|
  }

  /** What one round submits and leaves, in the words of both. */
  lemma FlushBoth(w: World, s: Ssl, error: ErrorClass, rc: int)
    requires w.session.Some? && s.engine == w.session.value.engine && s.outbound == w.outbound
    ensures var b := NextOutbound(w.outbound);
            var (e, o) := Drain(s.engine, b, 0, error);
            var v, t := FlushStep(w, error, rc), FlushRound(s, error);
            && o.Ordered() && v.session == Some(Flushed(w.session.value, b, error))
            && v.session.value.engine == e && v.session.value.handed == w.session.value.handed + o.Window()
            && t.engine == e && t.outbound == Some(o) && v.outbound == Some(o)
            && t.writes == s.writes + (if o.Window() == [] then [] else [o.Window()])
            && v.stack == w.stack + (if o.Window() != [] && rc != 0 then [TlsProcess] else [])
  {
    hide Drain, NextOutbound, Req.Submit;
    DrainConserves(s.engine, NextOutbound(w.outbound), 0, error);
    var (e, o) := Drain(s.engine, NextOutbound(w.outbound), 0, error);
    assert |o.Window()| == o.Remaining();
    assert s.writes + [] == s.writes && w.stack + [] == w.stack;
  }

  /** A round leaves the rest of both alone. */
  lemma FlushRest(w: World, s: Ssl, error: ErrorClass, rc: int)
    requires w.session.Some?
    ensures var v, t := FlushStep(w, error, rc), FlushRound(s, error);
            && v == w.(session := v.session, outbound := v.outbound, stack := v.stack,
                       tcp := v.tcp, purposes := v.purposes)
            && v.tcp.phase == w.tcp.phase
            && t == s.(engine := t.engine, outbound := t.outbound, writes := t.writes, refusals := t.refusals)
  {
    hide Drain, NextOutbound, Flushed;
    DrainConserves(w.session.value.engine, NextOutbound(w.outbound), 0, error);
    DrainConserves(s.engine, NextOutbound(s.outbound), 0, error);
  }

  lemma FlushShows(w: World, s: Ssl, error: ErrorClass, rc: int)
    requires Shows(w, s) && (rc != 0 <==> Refused(s))
    ensures var v, t := FlushStep(w, error, rc), FlushRound(s, error);
            && Shows(v, t)
            && v.stack == w.stack + (if Submits(s, t) && Refused(s) then [TlsProcess] else [])
            && v.tcp.phase == w.tcp.phase
  {
    hide Drain, NextOutbound, FlushStep, FlushRound, Refused;
    FlushBoth(w, s, error, rc);
    FlushRest(w, s, error, rc);
    var (e, o) := Drain(s.engine, NextOutbound(w.outbound), 0, error);
    ConcatSnoc(s.writes, o.Window());
    assert s.writes + [] == s.writes && w.session.value.handed + [] == w.session.value.handed;
  }

  /** Between the call of the connect callback and the moment it is forgotten. */
  lemma FinishShows(w: World, s: Ssl)
    requires Shows(w, s)
    ensures var v := FinishStep(w);
            && Shows(v.(connectEvent := None), AfterFinished(s)) && v.connectEvent == s.connectEvent
            && v.stack == w.stack + (if s.connectEvent.Some? then [ClearConnect(s.connectEvent.value), User] else [])
  {
    if s.connectEvent.Some? {
      SuccessesSnoc(w.fired, s.connectEvent.value);
    }
    assert w.stack + [] == w.stack;
  }

  /** The user's callback returns and the callback is forgotten. */
  lemma ReturnAndClear(w: World, stack: seq<Frame>, n: nat)
    requires w.stack == stack + [ClearConnect(n), User]
    ensures Valid(w, [UserReturn, RunClearConnect])
    ensures Run(w, [UserReturn, RunClearConnect]) == w.(stack := stack, connectEvent := None)
  {
    var v := Step(w, UserReturn);
    assert v.stack == stack + [ClearConnect(n)];
    var x := Step(v, RunClearConnect);
    assert x.stack == stack;
    RunCons(v, RunClearConnect, []);
    assert [RunClearConnect] + [] == [RunClearConnect];
    RunCons(w, UserReturn, [RunClearConnect]);
    assert [UserReturn] + [RunClearConnect] == [UserReturn, RunClearConnect];
  }

  lemma PopShows(w: World, s: Ssl)
    requires w.stack != [] && Shows(w, s)
    ensures Shows(Pop(w), s) && w.session.Some? && s.engine == w.session.value.engine
  {
  }

  lemma CloseShows(w: World, s: Ssl)
    requires Shows(w, s)
    ensures Shows(AfterCloseImpl(w, false), AfterClose(s, false)) && AfterCloseImpl(w, false).stack == w.stack
  {
    hide Concat, Successes, Req.AfterClose;
  }

  lemma StackShows(w: World, s: Ssl, stack: seq<Frame>)
    requires Shows(w, s)
    ensures Shows(w.(stack := stack), s)
  {
  }

  /** The last call of `tlsProcess`, with nothing to wrap, up to the connect callback if there is one. */
  lemma LastStep(w: World, s: Ssl, error: ErrorClass)
    requires AtTop(w, TlsProcess) && Shows(w, s) && w.tcp.phase.Open? && !Status(s.engine).NeedWrap?
    ensures Enabled(w, RunTls(error, 0))
    ensures var v, t := Step(w, RunTls(error, 0)), Pump(s, error);
            if Status(s.engine).Finished? && s.connectEvent.Some? then
              && v.stack == Pop(w).stack + [ClearConnect(s.connectEvent.value), User]
              && Shows(v.(connectEvent := None, stack := Pop(w).stack), t)
            else Shows(v, t) && v.stack == Pop(w).stack
  {
    hide FlushStep, FlushRound, FinishStep, AfterFinished, AfterCloseImpl, AfterClose, Shows;
    PopShows(w, s);
    FinishShows(Pop(w), s);
    CloseShows(Pop(w), s);
    var v := Step(w, RunTls(error, 0));
    if Status(s.engine).Finished? {
      StackShows(v.(connectEvent := None), Pump(s, error), Pop(w).stack);
      assert s.connectEvent.None? ==> v.(connectEvent := None) == v && v.stack == Pop(w).stack + [];
    }
  }

  lemma LastCallIsRun(w: World, s: Ssl, error: ErrorClass) returns (ls: seq<Label>)
    requires AtTop(w, TlsProcess) && Shows(w, s) && w.tcp.phase.Open? && !Status(s.engine).NeedWrap?
    ensures Valid(w, ls)
    ensures Shows(Run(w, ls), Pump(s, error)) && Run(w, ls).stack == Pop(w).stack
  {
    hide Step, Enabled, Shows, Pump;
    var l := RunTls(error, 0);
    LastStep(w, s, error);
    var v := Step(w, l);
    var rest: seq<Label> := [];
    if Status(s.engine).Finished? && s.connectEvent.Some? {
      rest := [UserReturn, RunClearConnect];
      ReturnAndClear(v, Pop(w).stack, s.connectEvent.value);
    }
    RunCons(w, l, rest);
    ls := [l] + rest;
  }

  function RefusalCode(s: Ssl): int {
    if Refused(s) then -1 else 0
  }

  /** One call with something to wrap is one round; a refusal calls `tlsProcess` again. */
  lemma RoundIsStep(w: World, s: Ssl, error: ErrorClass)
    requires AtTop(w, TlsProcess) && Shows(w, s) && w.tcp.phase.Open? && Status(s.engine).NeedWrap?
    ensures Enabled(w, RunTls(error, RefusalCode(s)))
    ensures var v, t := Step(w, RunTls(error, RefusalCode(s))), FlushRound(s, error);
            && Shows(v, t) && v.tcp.phase.Open?
            && (if Submits(s, t) && Refused(s) then AtTop(v, TlsProcess) && Pop(v).stack == Pop(w).stack
                else v.stack == Pop(w).stack)
  {
    hide FlushStep, FlushRound, Shows;
    assert Shows(Pop(w), s) by { PopShows(w, s); }
    FlushShows(Pop(w), s, error, RefusalCode(s));
    assert w.session.Some? && s.engine == w.session.value.engine by { PopShows(w, s); }
    var below := Pop(w).stack;
    assert (below + [TlsProcess])[..|below|] == below && below + [] == below;
  }

  /**
   * Whatever the parent answers, the stack machine has a run from a call of `tlsProcess` to its return
   * that does what the object's method does.
   */
  lemma {:induction false} PumpIsRun(w: World, s: Ssl, error: ErrorClass) returns (ls: seq<Label>)
    requires AtTop(w, TlsProcess) && Shows(w, s) && w.tcp.phase.Open?
    ensures Valid(w, ls)
    ensures Shows(Run(w, ls), Pump(s, error)) && Run(w, ls).stack == Pop(w).stack
    decreases |s.engine.bioOut|
  {
    hide Step, Enabled, Shows, FlushRound, AfterFinished, AfterClose, Refused;
    if !Status(s.engine).NeedWrap? {
      ls := LastCallIsRun(w, s, error);
      return;
    }
    var l := RunTls(error, RefusalCode(s));
    RoundIsStep(w, s, error);
    var v, t := Step(w, l), FlushRound(s, error);
    var rest: seq<Label> := [];
    if Submits(s, t) && Refused(s) {
      rest := PumpIsRun(v, t, error);
    }
    RunCons(w, l, rest);
    ls := [l] + rest;
  }
}
