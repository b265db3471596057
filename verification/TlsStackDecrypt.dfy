/**
 * The decrypt loop inside the whole stack: between two of its turns the handler may call back into both
 * sockets, write, disconnect, switch buffers or close. The loop still terminates, and when it ends the
 * current record is drained unless the last turn had no buffer or OpenSSL stopped it.
 */
module TlsStackDecrypt {
  import opened Prelude
  import opened Buffers
  import opened Engine
  import opened SslSocket
  import opened TlsStack
  import Req = TcpRequests

  /** What is left of the current decrypted record. */
  function Record(w: World): seq<Byte> {
    if w.session.Some? then w.session.value.engine.record else []
  }

  /** What holds all through the loop, handlers included. */
  predicate InLoop(w: World) {
    w.activity.Reading? ==>
      && w.session.Some?
      && (w.activity.last.None? ==> w.activity.again)
      && (w.activity.last.Some? && w.activity.again ==> Record(w) != [])
      && (w.activity.last == Some(Decrypted) && !w.activity.again ==> Record(w) == [])
  }

  /** Nothing a handler does, nor what it sets off, touches the record or the loop. */
  lemma HandlersKeepRecord(w: World, l: Label)
    requires Enabled(w, l) && w.activity.Reading? && w.session.Some? && !l.RunDecrypt? && !l.RunReadEnd?
    ensures Step(w, l).activity == w.activity && Step(w, l).session.Some? && Record(Step(w, l)) == Record(w)
  {
    hide WriteData, TlsStep, UnwrapEngine, DecryptStep, NextOutbound, ConnectResult,
         Req.Submit, Req.AfterClose, Req.Complete, Req.AfterInit, Req.Finish;
    if l.RunTls? {
      TlsKeepsRecord(w, l.flushError, l.flushRc);
    } else if l.Write? {
      WriteConservesIff(w.session.value.engine, w.outbound.value.Clear(), l.a, l.error);
    }
  }

  lemma TlsKeepsActivity(w: World, error: ErrorClass, rc: int)
    requires Enabled(w, RunTls(error, rc))
    ensures TlsStep(w, error, rc).activity == w.activity
  {
    hide Drain, NextOutbound, Flushed, Req.Submit, Req.AfterClose;
  }

  lemma TlsKeepsRecord(w: World, error: ErrorClass, rc: int)
    requires Enabled(w, RunTls(error, rc))
    ensures var v := TlsStep(w, error, rc);
            v.activity == w.activity && v.session.Some? && Record(v) == Record(w)
  {
    hide TlsStep, Drain, NextOutbound;
    TlsKeepsActivity(w, error, rc);
    TlsSession(w, error, rc);
    DrainConserves(w.session.value.engine, NextOutbound(w.outbound), 0, error);
  }

  /** One turn: it asks for another only with something left, and less than a turn before it had. */
  lemma Turn(w: World, u: UnwrapAnswer)
    requires Enabled(w, RunDecrypt(u))
    ensures var v := DecryptStep(w, u);
            && v.activity.Reading? && v.session.Some? && v.activity.last.Some?
            && (v.activity.again ==> Record(v) != [])
            && (v.activity.again && Record(w) != [] ==> |Record(v)| < |Record(w)|)
            && (v.activity.last == Some(Decrypted) ==> v.activity.again || Record(v) == [])
  {
    hide UnwrapEngine;
    var e := w.session.value.engine;
    UnwrapConserves(e, w.activity.input, w.inbound, u);
    assert VerdictOf(e, w.activity.input, w.inbound, u).Decrypted? ==>
        Reads(e, w.activity.input, w.inbound, u) && !FeedFails(w.activity.input, u);
    var (f, r, got) := UnwrapEngine(e, w.activity.input, w.inbound, u);
    assert r.DataOk? || r.DataClosed? || r.DataRead? || r.DataReadMore?;
    if e.record != [] {
      UnwrapShrinks(e, w.activity.input, w.inbound, u);
    }
  }

  lemma StepInLoop(w: World, l: Label)
    requires InLoop(w) && Enabled(w, l)
    ensures InLoop(Step(w, l))
  {
    hide Step, DecryptStep, InLoop;
    if l.RunDecrypt? {
      Turn(w, l.u);
      TurnIsStep(w, l);
      assert InLoop(DecryptStep(w, l.u)) by { TurnInLoop(w, l.u); }
    } else if w.activity.Reading? && !l.RunReadEnd? {
      SessionInLoop(w);
      HandlersKeepRecord(w, l);
      SameInLoop(w, Step(w, l));
    } else {
      OutsideInLoop(w, l);
    }
  }

  lemma TurnIsStep(w: World, l: Label)
    requires Enabled(w, l) && l.RunDecrypt?
    ensures Step(w, l) == DecryptStep(w, l.u)
  {
    hide DecryptStep;
  }

  lemma TurnInLoop(w: World, u: UnwrapAnswer)
    requires Enabled(w, RunDecrypt(u))
    ensures InLoop(DecryptStep(w, u))
  {
    hide DecryptStep;
    Turn(w, u);
  }

  lemma SessionInLoop(w: World)
    requires InLoop(w) && w.activity.Reading?
    ensures w.session.Some?
  {
  }

  lemma SameInLoop(w: World, v: World)
    requires InLoop(w) && w.activity.Reading? && w.session.Some?
    requires v.activity == w.activity && v.session.Some? && Record(v) == Record(w)
    ensures InLoop(v)
  {
  }

  /** Outside the loop only a read event starts one. */
  lemma OutsideInLoop(w: World, l: Label)
    requires Enabled(w, l) && !l.RunDecrypt? && (w.activity.Reading? ==> l.RunReadEnd?)
    ensures InLoop(Step(w, l))
  {
    hide WriteData, Written, Flushed, Drain, NextOutbound, UnwrapEngine, AfterShutdown, AfterBegin, DecryptStep,
         Req.Submit, Req.AfterClose, Req.Complete, Req.AfterInit, Req.Finish, Req.AfterCloseCallback;
    assert !Step(w, l).activity.Reading? || l.ParentRead?;
  }

  lemma {:induction false} RunInLoop(w: World, ls: seq<Label>)
    requires InLoop(w) && Valid(w, ls)
    ensures InLoop(Run(w, ls))
    decreases ls
  {
    hide Step, Enabled, InLoop;
    if ls != [] {
      StepInLoop(w, ls[0]);
      RunInLoop(Step(w, ls[0]), ls[1..]);
    }
  }

  lemma ReachableInLoop(w: World)
    requires Reachable(w)
    ensures InLoop(w)
  {
    hide InLoop;
    var ls :| Reaches(ls, w);
    assert InLoop(START) by { StartInLoop(); }
    RunInLoop(START, ls);
  }

  lemma StartInLoop()
    ensures InLoop(START)
  {
  }

  /**
   * Draining, whatever the handlers did in between: when the loop ends, the current record is drained,
   * unless the BIO refused the input, the handshake is not finished, `SSL_read` failed, or the last turn
   * found no buffer because the user had none or had cancelled reading.
   */
  lemma LoopEndDrained(w: World)
    requires Reachable(w) && Enabled(w, RunReadEnd)
    ensures w.session.Some? && w.activity.last.Some?
    ensures Record(w) == [] || w.activity.last.value in {BioRefused, StillShaking, NoBuffer, ReadRefused}
  {
    hide Reachable;
    ReachableInLoop(w);
    match w.activity.last.value {
      case Decrypted => assert w.activity.last == Some(Decrypted);
      case _ =>
    }
  }

  /** A turn lacks a buffer exactly when the user has none, where it gets as far as needing one. */
  lemma NoBufferMeansNone(w: World, u: UnwrapAnswer)
    requires Enabled(w, RunDecrypt(u))
    ensures var last := DecryptStep(w, u).activity.last;
            last == Some(NoBuffer) <==> w.inbound.None? && last != Some(BioRefused) && last != Some(StillShaking)
  {
  }

  // ---- the loop terminates ----

  /** The read event is still being handled all along `ls`. */
  predicate StaysInLoop(w: World, ls: seq<Label>)
    decreases ls
  {
    w.activity.Reading? && (ls == [] || (Enabled(w, ls[0]) && StaysInLoop(Step(w, ls[0]), ls[1..])))
  }

  function Turns(ls: seq<Label>): nat {
    if ls == [] then 0 else One(ls[0].RunDecrypt?) + Turns(ls[1..])
  }

  function TurnsLeft(w: World): nat
    requires w.session.Some? && w.activity.Reading?
  {
    if w.activity.again then |Record(w)| else 0
  }

  lemma {:induction false} TurnsBounded(w: World, ls: seq<Label>)
    requires InLoop(w) && StaysInLoop(w, ls) && w.activity.last.Some?
    ensures Turns(ls) <= TurnsLeft(w)
    decreases ls
  {
    hide Step, DecryptStep, Enabled;
    if ls != [] {
      var l, v := ls[0], Step(w, ls[0]);
      StepInLoop(w, l);
      if l.RunDecrypt? {
        AgainEnabled(w, l);
        Turn(w, l.u);
        TurnIsStep(w, l);
      } else {
        NotEnded(w, l);
        HandlersKeepRecord(w, l);
      }
      TurnsBounded(v, ls[1..]);
    }
  }

  /**
   * Termination: after its first turn the loop makes at most as many turns as the record then has bytes,
   * whatever handlers do in between.
   */
  lemma LoopTerminates(w: World, ls: seq<Label>)
    requires Reachable(w) && w.session.Some? && w.activity.Reading? && w.activity.last.Some?
    requires StaysInLoop(w, ls)
    ensures Turns(ls) <= |Record(w)|
  {
    hide Reachable;
    ReachableInLoop(w);
    TurnsBounded(w, ls);
  }

  lemma AgainEnabled(w: World, l: Label)
    requires Enabled(w, l) && l.RunDecrypt?
    ensures w.activity.Reading? && w.activity.again && Enabled(w, RunDecrypt(l.u))
  {
  }

  lemma NotEnded(w: World, l: Label)
    requires Enabled(w, l) && Step(w, l).activity.Reading?
    ensures !l.RunReadEnd?
  {
  }

  // ---- what the BIO is fed ----

  /** The rest of the read event being handled. */
  function Input(w: World): seq<Byte> {
    if w.activity.Reading? then w.activity.input else []
  }

  /** The inbound account of the current engine: what has arrived is fed, still to be fed, or lost. */
  predicate Inbound(w: World) {
    w.session.Some? ==>
      && |w.session.value.engine.fed| + |Input(w)| + w.lost == |w.arrived|
      && (w.lost == 0 ==> w.session.value.engine.fed + Input(w) == w.arrived)
  }

  /** Only the loop feeds the BIO. */
  lemma OthersFeedNothing(w: World, l: Label)
    requires Enabled(w, l) && !l.RunDecrypt? && !(l.ConnectDone? && l.status == 0)
    ensures Step(w, l).session.Some? <==> w.session.Some?
    ensures w.session.Some? ==> Step(w, l).session.value.engine.fed == w.session.value.engine.fed
  {
    hide DoWrite, TlsStep, NextOutbound, Flushed, DoListen, HookStep, Req.Submit, Req.AfterClose, Req.Complete,
         Req.AfterInit, Req.Finish, Req.AfterCloseCallback;
    if l.RunTls? {
      TlsSession(w, l.flushError, l.flushRc);
      FlushFeedsNothing(w.session.value, w.outbound, l.flushError);
    } else if l.Write? {
      WriteFeedsNothing(w, l.a, l.error, l.rc);
    } else if l.Listen? || l.RunHook? {
      ListenFeedsNothing(w, l);
    }
  }

  lemma WriteFeedsNothing(w: World, a: Answer, error: ErrorClass, rc: int)
    requires Enabled(w, Write(a, error, rc))
    ensures var v := DoWrite(w, a, error, rc);
            v.session.Some? && v.session.value.engine.fed == w.session.value.engine.fed
  {
    hide WriteData, Req.Submit;
    WriteConservesIff(w.session.value.engine, w.outbound.value.Clear(), a, error);
  }

  lemma ListenFeedsNothing(w: World, l: Label)
    requires Enabled(w, l) && (l.Listen? || l.RunHook?)
    ensures Step(w, l).session == w.session
  {
  }

  lemma FlushFeedsNothing(s: Session, outbound: Option<Buf>, error: ErrorClass)
    ensures Flushed(s, NextOutbound(outbound), error).engine.fed == s.engine.fed
  {
    hide Drain, NextOutbound;
    DrainConserves(s.engine, NextOutbound(outbound), 0, error);
  }

  /** Handlers keep the rest of the event, and nothing outside the loop has one. */
  lemma OthersKeepInput(w: World, l: Label)
    requires InLoop(w) && Enabled(w, l) && !l.RunDecrypt? && !l.RunReadEnd? && !l.ParentRead?
    ensures Input(Step(w, l)) == Input(w)
  {
    hide Step, InLoop;
    if w.activity.Reading? {
      SessionInLoop(w);
      HandlersKeepRecord(w, l);
    } else {
      NoneStarts(w, l);
    }
  }

  lemma NoneStarts(w: World, l: Label)
    requires Enabled(w, l) && !w.activity.Reading? && !l.RunDecrypt? && !l.ParentRead?
    ensures !Step(w, l).activity.Reading?
  {
    hide WriteData, Written, Flushed, Drain, NextOutbound, UnwrapEngine, AfterShutdown, AfterBegin, DecryptStep,
         Req.Submit, Req.AfterClose, Req.Complete, Req.AfterInit, Req.Finish, Req.AfterCloseCallback;
  }

  lemma OthersKeepArrived(w: World, l: Label)
    requires Enabled(w, l) && !l.RunReadEnd? && !l.ParentRead? && !(l.ConnectDone? && l.status == 0)
    ensures Step(w, l).arrived == w.arrived && Step(w, l).lost == w.lost
  {
    hide TlsStep, DoWrite, DecryptStep, ConnectResult,
         Req.Submit, Req.AfterClose, Req.Complete, Req.AfterInit, Req.Finish, Req.AfterCloseCallback;
    if l.RunTls? {
      TlsKeepsArrived(w, l.flushError, l.flushRc);
    } else if l.Write? || l.RunDecrypt? || l.ConnectDone? {
      WorkKeepsArrived(w, l);
    }
  }

  lemma TlsKeepsArrived(w: World, error: ErrorClass, rc: int)
    requires Enabled(w, RunTls(error, rc))
    ensures TlsStep(w, error, rc).arrived == w.arrived && TlsStep(w, error, rc).lost == w.lost
  {
    hide FlushStep, Req.AfterClose;
    if Status(w.session.value.engine).NeedWrap? {
      FlushKeepsArrived(Pop(w), error, rc);
    }
  }

  lemma FlushKeepsArrived(w: World, error: ErrorClass, rc: int)
    requires w.session.Some?
    ensures FlushStep(w, error, rc).arrived == w.arrived && FlushStep(w, error, rc).lost == w.lost
  {
    hide Flushed, Drain, NextOutbound, Req.Submit;
  }

  lemma WorkKeepsArrived(w: World, l: Label)
    requires Enabled(w, l) && (l.Write? || l.RunDecrypt? || (l.ConnectDone? && l.status != 0))
    ensures Step(w, l).arrived == w.arrived && Step(w, l).lost == w.lost
  {
    hide WriteData, Written, UnwrapEngine, Req.Submit, Req.Complete;
  }

  lemma DecryptFeeds(w: World, u: UnwrapAnswer)
    requires Inbound(w) && Enabled(w, RunDecrypt(u))
    ensures Inbound(DecryptStep(w, u))
    ensures u.accepted >= 0 ==> Input(DecryptStep(w, u)) == (if Input(w) == [] then [] else Input(w)[u.accepted..])
  {
    hide UnwrapEngine;
    var fed, input := w.session.value.engine.fed, w.activity.input;
    UnwrapFeeds(w.session.value.engine, input, w.inbound, u);
    var n := Accepted(input, u);
    assert |fed + input[..n]| == |fed| + n;
  }

  lemma EventArrives(w: World, data: seq<Byte>)
    requires Inbound(w) && Enabled(w, ParentRead(data))
    ensures Inbound(Step(w, ParentRead(data)))
  {
    var fed := w.session.value.engine.fed;
    assert fed + [] == fed;
  }

  lemma EventEnds(w: World)
    requires InLoop(w) && Inbound(w) && Enabled(w, RunReadEnd)
    ensures Inbound(Step(w, RunReadEnd))
  {
    var fed := w.session.value.engine.fed;
    assert fed + [] == fed;
    assert w.activity.input == [] ==> fed + w.activity.input == fed;
  }

  lemma EngineStarts(w: World, id: nat, pair: bool, hello: Answer)
    requires Enabled(w, ConnectDone(id, 0, pair, hello))
    ensures Inbound(ConnectResult(w, id, 0, pair, hello))
  {
    hide Req.Complete;
  }

  lemma StepInbound(w: World, l: Label)
    requires InLoop(w) && Inbound(w) && Enabled(w, l)
    ensures Inbound(Step(w, l))
  {
    hide Step, InLoop, DecryptStep, ConnectResult;
    if l.RunDecrypt? {
      hide Inbound;
      DecryptFeeds(w, l.u);
      TurnIsStep(w, l);
    } else if l.ParentRead? {
      EventArrives(w, l.data);
    } else if l.RunReadEnd? {
      EventEnds(w);
    } else if l.ConnectDone? && l.status == 0 {
      EngineStarts(w, l.id, l.pair, l.hello);
      ConnectIsStep(w, l);
    } else {
      OthersFeedNothing(w, l);
      OthersKeepInput(w, l);
      OthersKeepArrived(w, l);
    }
  }

  lemma ConnectIsStep(w: World, l: Label)
    requires Enabled(w, l) && l.ConnectDone?
    ensures Step(w, l) == ConnectResult(w, l.id, l.status, l.pair, l.hello)
  {
    hide ConnectResult;
  }

  lemma {:induction false} RunInbound(w: World, ls: seq<Label>)
    requires InLoop(w) && Inbound(w) && Valid(w, ls)
    ensures Inbound(Run(w, ls))
    decreases ls
  {
    hide Step, Enabled, InLoop, Inbound;
    if ls != [] {
      StepInLoop(w, ls[0]);
      StepInbound(w, ls[0]);
      RunInbound(Step(w, ls[0]), ls[1..]);
    }
  }

  /**
   * Inbound conservation in every reachable state: what the read events brought is what the BIO was fed,
   * each byte once and in order, followed by the rest of the event being handled; exactly when no loop has
   * ended with bytes the BIO had not taken.
   */
  lemma InboundConservation(w: World)
    requires Reachable(w) && w.session.Some?
    ensures w.session.value.engine.fed + Input(w) == w.arrived <==> w.lost == 0
  {
    hide InLoop, Reaches;
    var ls :| Reaches(ls, w);
    StartRun(ls, w);
    var fed := w.session.value.engine.fed;
    assert |fed + Input(w)| == |fed| + |Input(w)|;
  }

  lemma StartRun(ls: seq<Label>, w: World)
    requires Reaches(ls, w)
    ensures Inbound(w)
  {
    hide InLoop, Inbound;
    assert InLoop(START) && Inbound(START) by { StartInLoop(); StartInbound(); }
    RunInbound(START, ls);
  }

  lemma StartInbound()
    ensures Inbound(START)
  {
  }
}
