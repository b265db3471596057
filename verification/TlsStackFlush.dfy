/**
 * Who goes on with the output. When the loop is quiet and no flush is in flight, output is pending if and
 * only if the code left it behind, in one of four ways, and nothing has called `tlsProcess` for it since;
 * and an engine that is shutting down has its parent closed.
 */
module TlsStackFlush {
  import opened Prelude
  import opened Buffers
  import opened Engine
  import opened SslSocket
  import opened TlsStack
  import Loop = TlsStackDecrypt
  import Outcome = TlsStackOutcome
  import Req = TcpRequests
  import Settings = TlsStackSettings

  predicate FlushInFlight(w: World) {
    exists id :: id in w.tcp.inflight && id < |w.purposes| && w.purposes[id].ForFlush?
  }

  /** `tlsProcess` has been called, or will be when the loop or the completion goes on. */
  predicate FlushDue(w: World) {
    TlsProcess in w.stack || w.activity.Reading? || FlushInFlight(w)
  }

  predicate HasOutput(w: World) {
    w.session.Some? && w.session.value.engine.bioOut != []
  }

  predicate Room(w: World) {
    NextOutbound(w.outbound).Capacity() > 0
  }

  /** Steps that make the code call `tlsProcess`. */
  predicate Calls(w: World, l: Label)
    requires Enabled(w, l)
  {
    || (l.ConnectDone? && l.status == 0)
    || (l.WriteDone? && w.purposes[l.id].ForFlush?)
    || (l.Disconnect? && l.shut.rv >= 0)
    || l.RunReadEnd?
  }

  /**
   * The four ways to leave output behind: a user write that does not take everything along, because it
   * fails or the outbound buffer is too small; a disconnect that fails; a call of `tlsProcess` without
   * any room; a call of `tlsProcess` on a handshaked engine.
   */
  predicate Leaves(w: World, l: Label)
    requires Enabled(w, l)
  {
    && HasOutput(Step(w, l))
    && (|| l.Write?
        || (l.Disconnect? && l.shut.rv < 0)
        || (l.RunTls? && (w.session.value.engine.state.StateHandshaked? || !Room(w))))
  }

  /** Steps after which output is being attended to: a call, a flush with room, a write that takes it all. */
  predicate Attends(w: World, l: Label)
    requires Enabled(w, l)
  {
    || Calls(w, l)
    || (l.RunTls? && Status(w.session.value.engine).NeedWrap? && Room(w))
    || (l.Write? && !HasOutput(Step(w, l)))
  }

  function Left(w: World, l: Label, before: bool): bool
    requires Enabled(w, l)
  {
    !Attends(w, l) && (before || Leaves(w, l))
  }

  /** Whether output has been left behind and not attended to since; `before` says so of `w`. */
  predicate LeftBehind(w: World, ls: seq<Label>, before: bool)
    requires Valid(w, ls)
    decreases ls
  {
    if ls == [] then before else LeftBehind(Step(w, ls[0]), ls[1..], Left(w, ls[0], before))
  }

  // ---- what is due stays due ----

  /** Steps that take nothing away from what is due. */
  predicate Keeps(w: World, v: World) {
    && (TlsProcess in w.stack ==> TlsProcess in v.stack)
    && (w.activity.Reading? ==> v.activity.Reading?)
    && w.tcp.inflight <= v.tcp.inflight && w.purposes <= v.purposes
  }

  lemma KeepsDue(w: World, v: World)
    requires FlushDue(w) && Keeps(w, v)
    ensures FlushDue(v)
  {
    if FlushInFlight(w) {
      var id :| id in w.tcp.inflight && id < |w.purposes| && w.purposes[id].ForFlush?;
      assert id in v.tcp.inflight && v.purposes[id] == w.purposes[id];
    }
  }

  lemma IndifferentKeeps(w: World, l: Label)
    requires Outcome.Inv(w) && Enabled(w, l) && Outcome.Indifferent(l)
    ensures Keeps(w, Step(w, l)) && Step(w, l).session == w.session
  {
    hide Step, Enabled, Outcome.Inv;
    Outcome.IndifferentStep(w, l);
    if TlsProcess in w.stack {
      StackKeeps(w, l);
    }
    if w.activity.Reading? {
      assert w.session.Some? by { SessionThere(w); }
      Loop.HandlersKeepRecord(w, l);
    }
  }

  lemma SessionThere(w: World)
    requires Outcome.Inv(w) && w.activity.Reading?
    ensures w.session.Some?
  {
  }

  lemma StackKeeps(w: World, l: Label)
    requires Enabled(w, l) && Outcome.Indifferent(l) && TlsProcess in w.stack
    ensures TlsProcess in Outcome.MovedStack(w, l)
  {
    var i :| 0 <= i < |w.stack| && w.stack[i] == TlsProcess;
    if l.UserReturn? || l.RunEmitDisconnect? {
      assert w.stack[..|w.stack| - 1][i] == TlsProcess;
    }
  }

  lemma ClearKeeps(w: World)
    requires Enabled(w, RunClearConnect)
    ensures Keeps(w, Step(w, RunClearConnect))
  {
    if TlsProcess in w.stack {
      var i :| 0 <= i < |w.stack| && w.stack[i] == TlsProcess;
      assert w.stack[..|w.stack| - 1][i] == TlsProcess;
    }
  }

  /** Calls the user makes of the TLS socket. */
  lemma UserKeeps(w: World, l: Label)
    requires Enabled(w, l) && (l.Connect? || l.Write? || l.Disconnect?)
    ensures Keeps(w, Step(w, l))
  {
    hide WriteData, Written, AfterShutdown;
  }

  /** A completion of a request that is not a flush leaves the flushes in flight there. */
  lemma CompletionKeeps(w: World, l: Label)
    requires Enabled(w, l) && FlushDue(w)
    requires (l.ConnectDone? && l.status != 0) || (l.WriteDone? && !w.purposes[l.id].ForFlush?)
    ensures FlushDue(Step(w, l))
  {
    var v := Step(w, l);
    var id :| id in w.tcp.inflight && id < |w.purposes| && w.purposes[id].ForFlush?;
    assert id in v.tcp.inflight && v.purposes[id].ForFlush?;
  }

  lemma CallsDue(w: World, l: Label)
    requires Enabled(w, l) && Calls(w, l)
    ensures FlushDue(Step(w, l))
  {
    hide AfterBegin, AfterShutdown;
    var v := Step(w, l);
    assert v.stack[|v.stack| - 1] == TlsProcess;
  }

  /** A call of `tlsProcess` with something to wrap and room for some of it leaves a flush under way. */
  lemma FlushGoesOn(w: World, error: ErrorClass, rc: int)
    requires w.session.Some? && |w.purposes| == |w.tcp.requests| && Status(w.session.value.engine).NeedWrap?
    requires Room(w)
    ensures FlushDue(FlushStep(w, error, rc))
  {
    hide Drain, NextOutbound, Flushed;
    var b := NextOutbound(w.outbound);
    DrainConserves(w.session.value.engine, b, 0, error);
    var v := FlushStep(w, error, rc);
    var id := |w.tcp.requests|;
    if rc == 0 {
      assert id in v.tcp.inflight && v.purposes[id].ForFlush?;
    } else {
      assert v.stack[|w.stack|] == TlsProcess;
    }
  }

  lemma TlsDue(w: World, error: ErrorClass, rc: int)
    requires Outcome.Inv(w) && Enabled(w, RunTls(error, rc))
    requires Status(w.session.value.engine).NeedWrap? && Room(w)
    ensures FlushDue(TlsStep(w, error, rc))
  {
    hide FlushStep, NextOutbound;
    FlushGoesOn(Pop(w), error, rc);
  }

  /** Whatever happens but `tlsProcess` itself, what is due stays due. */
  lemma StepDue(w: World, l: Label)
    requires Outcome.Inv(w) && Enabled(w, l) && FlushDue(w) && !l.RunTls?
    ensures FlushDue(Step(w, l))
  {
    hide Step, Outcome.Inv, FlushDue, Keeps, DecryptStep;
    if Calls(w, l) {
      CallsDue(w, l);
    } else if Outcome.Indifferent(l) {
      IndifferentKeeps(w, l);
      KeepsDue(w, Step(w, l));
    } else if l.RunDecrypt? {
      DecryptDue(w, l);
    } else if l.ConnectDone? || l.WriteDone? {
      CompletionKeeps(w, l);
    } else {
      if l.RunClearConnect? {
        ClearKeeps(w);
      } else {
        UserKeeps(w, l);
      }
      KeepsDue(w, Step(w, l));
    }
  }

  lemma DecryptDue(w: World, l: Label)
    requires Enabled(w, l) && l.RunDecrypt?
    ensures FlushDue(Step(w, l))
  {
    hide DecryptStep;
    Loop.Turn(w, l.u);
    Loop.TurnIsStep(w, l);
  }

  // ---- output ----

  /** Steps that do not touch the engine. */
  lemma EngineUntouched(w: World, l: Label)
    requires Outcome.Inv(w) && Enabled(w, l)
    requires !l.Write? && !l.Disconnect? && !l.RunTls? && !l.RunDecrypt? && !(l.ConnectDone? && l.status == 0)
    ensures Step(w, l).session == w.session
  {
    hide Outcome.Inv, Req.Submit, Req.Complete;
    if Outcome.Indifferent(l) {
      hide Step, Enabled;
      IndifferentKeeps(w, l);
    }
  }

  /** Output goes only by a flush with room or a write that takes it all along; a new engine starts anew. */
  lemma OutputStays(w: World, l: Label)
    requires Outcome.Inv(w) && Enabled(w, l) && HasOutput(w) && !Attends(w, l)
    ensures HasOutput(Step(w, l))
  {
    hide Outcome.Inv, WriteData, DoWrite, UnwrapEngine, TlsStep, NextOutbound;
    if l.RunTls? {
      TlsOutput(w, l.flushError, l.flushRc);
    } else if l.RunDecrypt? {
      UnwrapOutbound(w.session.value.engine, w.activity.input, w.inbound, l.u);
    } else if !l.Write? && !l.Disconnect? {
      EngineUntouched(w, l);
    }
  }

  /** A flush without room takes nothing. */
  lemma NoRoomTakesNothing(s: Session, b: Buf, error: ErrorClass)
    requires b == b.Clear() && b.Capacity() == 0
    ensures Flushed(s, b, error).engine.bioOut == s.engine.bioOut
  {
    hide Drain;
    DrainConserves(s.engine, b, 0, error);
    var (e, o) := Drain(s.engine, b, 0, error);
    assert o.Window() == [];
    assert o.Window() + e.bioOut == e.bioOut;
  }

  /** `tlsProcess` on an engine with nothing to wrap leaves it alone. */
  lemma UnwrappedSession(w: World, error: ErrorClass, rc: int)
    requires Enabled(w, RunTls(error, rc)) && !Status(w.session.value.engine).NeedWrap?
    ensures TlsStep(w, error, rc).session == w.session
  {
    hide TlsStep, NextOutbound, Flushed;
    TlsSession(w, error, rc);
  }

  lemma WrappedSession(w: World, error: ErrorClass, rc: int)
    requires Enabled(w, RunTls(error, rc)) && Status(w.session.value.engine).NeedWrap?
    ensures TlsStep(w, error, rc).session == Some(Flushed(w.session.value, NextOutbound(w.outbound), error))
  {
    hide TlsStep, NextOutbound, Flushed;
    TlsSession(w, error, rc);
  }

  /** `tlsProcess` takes output only by a flush with room. */
  lemma TlsOutput(w: World, error: ErrorClass, rc: int)
    requires Enabled(w, RunTls(error, rc))
    requires !(Status(w.session.value.engine).NeedWrap? && Room(w))
    ensures var v := TlsStep(w, error, rc);
            v.session.Some? && v.session.value.engine.bioOut == w.session.value.engine.bioOut
  {
    hide TlsStep, NextOutbound, Flushed, Status;
    if Status(w.session.value.engine).NeedWrap? {
      WrappedSession(w, error, rc);
      NoRoomTakesNothing(w.session.value, NextOutbound(w.outbound), error);
    } else {
      UnwrappedSession(w, error, rc);
    }
  }

  /** Output that is not due has been left behind, and output left behind is there. */
  predicate Owed(w: World, left: bool) {
    (HasOutput(w) && !left ==> FlushDue(w)) && (left ==> HasOutput(w))
  }

  /** A call of `tlsProcess` leaves output only where `Leaves` says so, or goes on with it. */
  lemma TlsOwed(w: World, l: Label, left: bool)
    requires Outcome.Inv(w) && Enabled(w, l) && l.RunTls? && Owed(w, left)
    ensures Owed(Step(w, l), Left(w, l, left))
  {
    hide Outcome.Inv, TlsStep, NextOutbound, FlushDue;
    if Status(w.session.value.engine).NeedWrap? && Room(w) {
      TlsDue(w, l.flushError, l.flushRc);
    } else {
      TlsOutput(w, l.flushError, l.flushRc);
    }
  }

  lemma StepOwed(w: World, l: Label, left: bool)
    requires Outcome.Inv(w) && Enabled(w, l) && Owed(w, left)
    ensures Owed(Step(w, l), Left(w, l, left))
  {
    hide Step, Outcome.Inv, FlushDue;
    if l.RunTls? {
      TlsOwed(w, l, left);
    } else {
      if HasOutput(w) && !Attends(w, l) {
        OutputStays(w, l);
      }
      if FlushDue(w) {
        StepDue(w, l);
      } else if Calls(w, l) {
        CallsDue(w, l);
      } else if l.RunDecrypt? {
        DecryptDue(w, l);
      } else if !l.Write? && !l.Disconnect? {
        EngineUntouched(w, l);
      }
    }
  }

  lemma {:induction false} RunOwed(w: World, ls: seq<Label>, left: bool)
    requires Outcome.Inv(w) && Valid(w, ls) && Owed(w, left)
    ensures Owed(Run(w, ls), LeftBehind(w, ls, left))
    decreases ls
  {
    hide Step, Enabled, Outcome.Inv, Owed, Left;
    if ls != [] {
      Outcome.StepInv(w, ls[0]);
      StepOwed(w, ls[0], left);
      RunOwed(Step(w, ls[0]), ls[1..], Left(w, ls[0], left));
    }
  }

  /**
   * No stranded output: in a quiet state with no flush in flight, whose completion would call `tlsProcess`
   * again, output is pending if and only if it was left behind and has not been attended to since.
   */
  lemma NoStrandedOutput(ls: seq<Label>, w: World)
    requires Reaches(ls, w) && Quiet(w) && !FlushInFlight(w)
    ensures HasOutput(w) <==> LeftBehind(START, ls, false)
  {
    hide Run, Valid, LeftBehind;
    assert Outcome.Inv(START) by { Outcome.StartInv(); }
    RunOwed(START, ls, false);
  }

  // ---- closing ----

  predicate ShuttingDown(w: World) {
    w.session.Some? && w.session.value.engine.state.StateClosing?
  }

  /** A disconnect whose `SSL_shutdown` does not fail starts a shutdown, with the alert pending. */
  lemma DisconnectShutsDown(w: World, a: Answer)
    requires Enabled(w, Disconnect(a))
    ensures var v := Step(w, Disconnect(a));
            && v.session.Some?
            && v.session.value.engine.bioOut == w.session.value.engine.bioOut + a.out
            && (a.rv >= 0 ==> ShuttingDown(v) && FlushDue(v))
  {
    ShutdownOutcome(w.session.value.engine, a);
    if a.rv >= 0 {
      CallsDue(w, Disconnect(a));
    }
  }

  /** A call of `tlsProcess` that finds the close alert, or anything before it, pending, and no room. */
  predicate Stalls(w: World, l: Label)
    requires Enabled(w, l)
  {
    l.RunTls? && HasOutput(w) && !Room(w)
  }

  function Stalled(w: World, l: Label, before: bool): bool
    requires Enabled(w, l)
  {
    !Calls(w, l) && (before || Stalls(w, l))
  }

  /** Whether the last flush found no room and `tlsProcess` has not been called since. */
  predicate HasStalled(w: World, ls: seq<Label>, before: bool)
    requires Valid(w, ls)
    decreases ls
  {
    if ls == [] then before else HasStalled(Step(w, ls[0]), ls[1..], Stalled(w, ls[0], before))
  }

  predicate CloseOwed(w: World, stalled: bool) {
    ShuttingDown(w) && !w.closing && !stalled ==> FlushDue(w)
  }

  lemma ClosingStays(w: World, l: Label)
    requires Enabled(w, l) && w.closing
    ensures Step(w, l).closing
  {
    hide Step, Enabled;
    Settings.StepObserved(w, l);
    Settings.ClosingSeen(w, l);
  }

  /** Only a disconnect that succeeds starts a shutdown. */
  lemma ShutdownStarts(w: World, l: Label)
    requires Outcome.Inv(w) && Enabled(w, l) && !Calls(w, l) && !l.RunDecrypt? && ShuttingDown(Step(w, l))
    ensures ShuttingDown(w)
  {
    hide Outcome.Inv, WriteData, UnwrapEngine, TlsStep, NextOutbound, Drain, Flushed;
    if l.RunTls? {
      TlsSession(w, l.flushError, l.flushRc);
      FlushedState(w, l.flushError);
    } else if l.Write? {
      WriteConservesIff(w.session.value.engine, w.outbound.value.Clear(), l.a, l.error);
    } else if !l.Disconnect? {
      EngineUntouched(w, l);
    }
  }

  lemma FlushedState(w: World, error: ErrorClass)
    requires w.session.Some?
    ensures var e, s := w.session.value.engine, Flushed(w.session.value, NextOutbound(w.outbound), error);
            s.engine.state == e.state || s.engine.state.StateError?
  {
    hide Drain, NextOutbound;
    DrainConserves(w.session.value.engine, NextOutbound(w.outbound), 0, error);
  }

  /** `tlsProcess` on an engine that is shutting down: a flush with room, a stall, or the close. */
  lemma TlsCloses(w: World, error: ErrorClass, rc: int)
    requires Outcome.Inv(w) && Enabled(w, RunTls(error, rc)) && ShuttingDown(w)
    ensures var v := TlsStep(w, error, rc); v.closing || FlushDue(v) || (HasOutput(w) && !Room(w))
  {
    hide FlushStep, NextOutbound, FlushDue, Req.AfterClose;
    if Status(w.session.value.engine).NeedWrap? && Room(w) {
      TlsDue(w, error, rc);
    }
  }

  lemma StepClose(w: World, l: Label, stalled: bool)
    requires Outcome.Inv(w) && Enabled(w, l) && CloseOwed(w, stalled)
    ensures CloseOwed(Step(w, l), Stalled(w, l, stalled))
  {
    hide Step, Outcome.Inv, FlushDue, TlsStep, NextOutbound;
    if w.closing {
      ClosingStays(w, l);
    } else if Calls(w, l) {
      CallsDue(w, l);
    } else if l.RunDecrypt? {
      DecryptDue(w, l);
    } else if ShuttingDown(Step(w, l)) {
      ShutdownStarts(w, l);
      if l.RunTls? {
        TlsCloses(w, l.flushError, l.flushRc);
        TlsIsStep(w, l);
      } else if FlushDue(w) {
        StepDue(w, l);
      }
    }
  }

  lemma TlsIsStep(w: World, l: Label)
    requires Enabled(w, l) && l.RunTls?
    ensures Step(w, l) == TlsStep(w, l.flushError, l.flushRc)
  {
    hide TlsStep;
  }

  lemma {:induction false} RunClose(w: World, ls: seq<Label>, stalled: bool)
    requires Outcome.Inv(w) && Valid(w, ls) && CloseOwed(w, stalled)
    ensures CloseOwed(Run(w, ls), HasStalled(w, ls, stalled))
    decreases ls
  {
    hide Step, Enabled, Outcome.Inv, CloseOwed, Stalled;
    if ls != [] {
      Outcome.StepInv(w, ls[0]);
      StepClose(w, ls[0], stalled);
      RunClose(Step(w, ls[0]), ls[1..], Stalled(w, ls[0], stalled));
    }
  }

  /**
   * A disconnect ends in a close: in every quiet state with the engine shutting down, the TLS socket is
   * closing, or a flush is in flight, or the last flush had no room in the outbound buffer.
   */
  lemma ShutdownCloses(ls: seq<Label>, w: World)
    requires Reaches(ls, w) && Quiet(w) && ShuttingDown(w)
    ensures w.closing || FlushInFlight(w) || HasStalled(START, ls, false)
  {
    hide Run, Valid, HasStalled;
    assert Outcome.Inv(START) by { Outcome.StartInv(); }
    RunClose(START, ls, false);
  }
}
