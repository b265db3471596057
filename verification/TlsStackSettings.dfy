/**
 * What every run leaves of the TLS socket's settings, read off its calls: the read buffer, whether it
 * counts as handshaked, whether it is closing, who listens; and when user code is called.
 */
module TlsStackSettings {
  import opened Prelude
  import opened Buffers
  import opened Engine
  import opened SslSocket
  import opened TlsStack
  import Loop = TlsStackDecrypt
  import Req = TcpRequests

  /** Steps that close the TLS socket, for the first time or again. */
  predicate Closes(w: World, l: Label)
    requires Enabled(w, l)
  {
    || l.Close? || l.RunErrorClose? || l.RunHook?
    || (l.RunTls? && Status(w.session.value.engine).ClosingStatus?)
  }

  /** The calls of `tlsProcess` that find a handshake finished. */
  predicate Finishes(w: World, l: Label)
    requires Enabled(w, l)
  {
    l.RunTls? && Status(w.session.value.engine).Finished?
  }

  /** The settings as an observer of the calls keeps them. */
  datatype Seen = Seen(
    inbound: Option<nat>, closing: bool, handshaked: bool,
    tcpListeners: seq<nat>, sslListeners: seq<nat>, registered: nat)

  function Shown(w: World): Seen {
    Seen(w.inbound, w.closing, w.handshaked, w.tcpListeners, w.sslListeners, w.registered)
  }

  /**
   * Reading sets a buffer; cancelling, disconnecting and the first close drop it. A listener goes to the end
   * of its socket's list; the lists go when the close callback has been through them.
   */
  function Observe(s: Seen, w: World, l: Label): Seen
    requires Enabled(w, l)
  {
    match l
    case Read(capacity) => s.(inbound := Some(capacity))
    case CancelRead => s.(inbound := None)
    case Disconnect(_) => s.(inbound := None)
    case Listen(true) => s.(tcpListeners := s.tcpListeners + [s.registered], registered := s.registered + 1)
    case Listen(false) => s.(sslListeners := s.sslListeners + [s.registered], registered := s.registered + 1)
    case RunSslOffAll => s.(sslListeners := [])
    case RunTcpOffAll => s.(tcpListeners := [])
    case _ =>
      if Closes(w, l) && !s.closing then s.(closing := true, inbound := None)
      else if Finishes(w, l) then s.(handshaked := true)
      else s
  }

  function Observed(s: Seen, w: World, ls: seq<Label>): Seen
    requires Valid(w, ls)
    decreases ls
  {
    if ls == [] then s else Observed(Observe(s, w, ls[0]), Step(w, ls[0]), ls[1..])
  }

  lemma TlsObserved(w: World, l: Label)
    requires Enabled(w, l) && l.RunTls?
    ensures Shown(Step(w, l)) == Observe(Shown(w), w, l)
  {
    hide Drain, NextOutbound, Flushed, Req.Submit, Req.AfterClose;
  }

  lemma CallObserved(w: World, l: Label)
    requires Enabled(w, l) && (l.Connect? || l.Write? || l.Disconnect?)
    ensures Shown(Step(w, l)) == Observe(Shown(w), w, l)
  {
    hide WriteData, Written, AfterShutdown, Req.Submit;
  }

  lemma ResultObserved(w: World, l: Label)
    requires Enabled(w, l) && (l.RunDecrypt? || l.ConnectDone? || l.WriteDone?)
    ensures Shown(Step(w, l)) == Observe(Shown(w), w, l)
  {
    hide UnwrapEngine, AfterBegin, Shaken, Req.Complete;
  }

  lemma OtherObserved(w: World, l: Label)
    requires Enabled(w, l) && !l.RunTls? && !l.Connect? && !l.Write? && !l.Disconnect?
    requires !l.RunDecrypt? && !l.ConnectDone? && !l.WriteDone?
    ensures Shown(Step(w, l)) == Observe(Shown(w), w, l)
  {
    hide Req.AfterClose, Req.AfterInit, Req.Finish, Req.AfterCloseCallback;
  }

  lemma StepObserved(w: World, l: Label)
    requires Enabled(w, l)
    ensures Shown(Step(w, l)) == Observe(Shown(w), w, l)
  {
    hide Step, Enabled, Observe, Shown;
    if l.RunTls? {
      TlsObserved(w, l);
    } else if l.Connect? || l.Write? || l.Disconnect? {
      CallObserved(w, l);
    } else if l.RunDecrypt? || l.ConnectDone? || l.WriteDone? {
      ResultObserved(w, l);
    } else {
      OtherObserved(w, l);
    }
  }

  lemma {:induction false} RunObserved(w: World, ls: seq<Label>)
    requires Valid(w, ls)
    ensures Shown(Run(w, ls)) == Observed(Shown(w), w, ls)
    decreases ls
  {
    hide Step, Enabled, Observe, Shown;
    if ls != [] {
      StepObserved(w, ls[0]);
      RunObserved(Step(w, ls[0]), ls[1..]);
    }
  }

  /**
   * Over every run: the read buffer is the one of the last `read`, unless the user has cancelled or
   * disconnected, or the socket has begun to close, since; it is closing exactly if something has closed
   * it, and handshaked exactly if `tlsProcess` has found a handshake finished; each socket has the
   * listeners registered since it was cleared, in order.
   */
  lemma SettingsOfRun(ls: seq<Label>, w: World)
    requires Reaches(ls, w)
    ensures Shown(w) == Observed(Seen(None, false, false, [], [], 0), START, ls)
  {
    hide Step, Enabled, Observed;
    RunObserved(START, ls);
  }

  // ---- the size of the outbound buffer ----

  function Size(w: World): Option<nat> {
    if w.outbound.Some? then Some(w.outbound.value.Capacity()) else None
  }

  /** The user sets a buffer; `tlsProcess` makes one of 8192 bytes when it has output and none is set. */
  function SizeAfter(w: World, l: Label, before: Option<nat>): Option<nat>
    requires Enabled(w, l)
  {
    match l
    case SetOutbound(b) => Some(b.Capacity())
    case RunTls(_, _) =>
      if before.None? && Status(w.session.value.engine).NeedWrap? then Some(8192) else before
    case _ => before
  }

  function LastSize(w: World, ls: seq<Label>, before: Option<nat>): Option<nat>
    requires Valid(w, ls)
    decreases ls
  {
    if ls == [] then before else LastSize(Step(w, ls[0]), ls[1..], SizeAfter(w, ls[0], before))
  }

  lemma FlushSize(w: World, error: ErrorClass, rc: int)
    requires w.session.Some?
    ensures Size(FlushStep(w, error, rc)) == Some(if w.outbound.Some? then w.outbound.value.Capacity() else 8192)
  {
    hide Drain, NextOutbound, Flushed, Req.Submit;
    DrainConserves(w.session.value.engine, NextOutbound(w.outbound), 0, error);
    OutboundCapacity(w.outbound);
  }

  lemma WriteSize(w: World, a: Answer, error: ErrorClass, rc: int)
    requires Enabled(w, Write(a, error, rc))
    ensures Size(DoWrite(w, a, error, rc)) == Size(w)
  {
    hide WriteData, Written, Req.Submit;
    WriteConservesIff(w.session.value.engine, w.outbound.value.Clear(), a, error);
  }

  lemma TlsSize(w: World, l: Label)
    requires Enabled(w, l) && l.RunTls?
    ensures Size(Step(w, l)) == SizeAfter(w, l, Size(w))
  {
    hide FlushStep, Req.AfterClose;
    if Status(w.session.value.engine).NeedWrap? {
      FlushSize(Pop(w), l.flushError, l.flushRc);
    }
  }

  lemma StepSize(w: World, l: Label)
    requires Enabled(w, l)
    ensures Size(Step(w, l)) == SizeAfter(w, l, Size(w))
  {
    hide Step, Size;
    if l.RunTls? {
      TlsSize(w, l);
    } else if l.Write? {
      WriteSize(w, l.a, l.error, l.rc);
      WriteIsStep(w, l);
    } else if l.SetOutbound? {
      SetSize(w, l.buffer);
    } else {
      OutboundKept(w, l);
      assert Size(Step(w, l)) == Size(w) by { SameSize(w, Step(w, l)); }
    }
  }

  lemma WriteIsStep(w: World, l: Label)
    requires Enabled(w, l) && l.Write?
    ensures Step(w, l) == DoWrite(w, l.a, l.error, l.rc)
  {
    hide DoWrite;
  }

  lemma SetSize(w: World, b: Buf)
    requires Enabled(w, SetOutbound(b))
    ensures Size(Step(w, SetOutbound(b))) == Some(b.Capacity())
  {
  }

  lemma SameSize(w: World, v: World)
    requires v.outbound == w.outbound
    ensures Size(v) == Size(w)
  {
  }

  lemma OutboundKept(w: World, l: Label)
    requires Enabled(w, l) && !l.RunTls? && !l.Write? && !l.SetOutbound?
    ensures Step(w, l).outbound == w.outbound
  {
    hide UnwrapEngine, AfterShutdown, ConnectResult,
         Req.Submit, Req.AfterClose, Req.Complete, Req.AfterInit, Req.Finish, Req.AfterCloseCallback;
    if l.ConnectDone? {
      ConnectKeepsOutbound(w, l.id, l.status, l.pair, l.hello);
    }
  }

  lemma ConnectKeepsOutbound(w: World, id: nat, status: int, pair: bool, hello: Answer)
    requires Enabled(w, ConnectDone(id, status, pair, hello))
    ensures ConnectResult(w, id, status, pair, hello).outbound == w.outbound
  {
    hide AfterBegin, Shaken, Req.Complete;
  }

  lemma {:induction false} RunSize(w: World, ls: seq<Label>)
    requires Valid(w, ls)
    ensures Size(Run(w, ls)) == LastSize(w, ls, Size(w))
    decreases ls
  {
    hide Step, Enabled, Size, SizeAfter;
    if ls != [] {
      StepSize(w, ls[0]);
      RunSize(Step(w, ls[0]), ls[1..]);
    }
  }

  /** Over every run writes and flushes go through a buffer of the size the user last set, else of 8192 bytes. */
  lemma OutboundSizeOfRun(ls: seq<Label>, w: World)
    requires Reaches(ls, w)
    ensures Size(w) == LastSize(START, ls, None)
  {
    hide Step, Enabled, LastSize;
    RunSize(START, ls);
  }

  // ---- a read event with an error ----

  /** A read error closes the socket: by the time the loop is quiet again it is closing. */
  predicate ErrorCloses(w: World, erred: bool) {
    erred ==> w.closing || w.activity.ReadFailed?
  }

  predicate Erred(ls: seq<Label>) {
    exists i :: 0 <= i < |ls| && ls[i].ParentReadError?
  }

  /** While the failed read is handled nothing else ends the activity. */
  lemma FailureHandled(w: World, l: Label)
    requires Enabled(w, l) && w.activity.ReadFailed? && !l.RunErrorClose?
    ensures Step(w, l).activity.ReadFailed?
  {
    hide TlsStep, DoWrite, DoDisconnect, DoConnect, Req.AfterClose, Req.AfterInit;
    if l.RunTls? {
      Loop.TlsKeepsActivity(w, l.flushError, l.flushRc);
    } else if l.Write? || l.Disconnect? || l.Connect? {
      CallKeepsActivity(w, l);
    }
  }

  lemma CallKeepsActivity(w: World, l: Label)
    requires Enabled(w, l) && (l.Connect? || l.Write? || l.Disconnect?)
    ensures Step(w, l).activity == w.activity
  {
    hide WriteData, Written, AfterShutdown, Req.Submit;
  }

  lemma StepErrorCloses(w: World, l: Label, erred: bool)
    requires Enabled(w, l) && ErrorCloses(w, erred)
    ensures ErrorCloses(Step(w, l), erred || l.ParentReadError?)
  {
    hide Step, Enabled, Observe;
    StepObserved(w, l);
    if w.closing {
      ClosingSeen(w, l);
    }
    if l.ParentReadError? {
      FailureBegins(w, l);
    } else if l.RunErrorClose? {
      FailureEnds(w, l);
    } else if w.activity.ReadFailed? {
      FailureHandled(w, l);
    }
  }

  lemma ClosingSeen(w: World, l: Label)
    requires Enabled(w, l) && w.closing
    ensures Observe(Shown(w), w, l).closing
  {
  }

  lemma FailureBegins(w: World, l: Label)
    requires Enabled(w, l) && l.ParentReadError?
    ensures Step(w, l).activity.ReadFailed?
  {
  }

  lemma FailureEnds(w: World, l: Label)
    requires Enabled(w, l) && l.RunErrorClose?
    ensures Step(w, l).closing
  {
  }

  lemma {:induction false} RunErrorCloses(w: World, ls: seq<Label>, erred: bool)
    requires Valid(w, ls) && ErrorCloses(w, erred)
    ensures ErrorCloses(Run(w, ls), erred || Erred(ls))
    decreases ls
  {
    hide Step, Enabled, ErrorCloses;
    if ls != [] {
      StepErrorCloses(w, ls[0], erred);
      RunErrorCloses(Step(w, ls[0]), ls[1..], erred || ls[0].ParentReadError?);
      if Erred(ls) && !ls[0].ParentReadError? {
        var i :| 0 <= i < |ls| && ls[i].ParentReadError?;
        assert ls[1..][i - 1].ParentReadError?;
      }
      if Erred(ls[1..]) {
        var i :| 0 <= i < |ls[1..]| && ls[1..][i].ParentReadError?;
        assert ls[i + 1].ParentReadError?;
      }
    }
  }

  lemma ReadErrorCloses(ls: seq<Label>, w: World)
    requires Reaches(ls, w) && Quiet(w) && Erred(ls)
    ensures w.closing
  {
    hide Run, Valid;
    RunErrorCloses(START, ls, false);
  }

  // ---- results of disconnect ----

  function Pending(stack: seq<Frame>): nat {
    if stack == [] then 0 else Pending(stack[..|stack| - 1]) + One(stack[|stack| - 1].EmitDisconnect?)
  }

  lemma PendingSnoc(stack: seq<Frame>, f: Frame)
    ensures Pending(stack + [f]) == Pending(stack) + One(f.EmitDisconnect?)
  {
    assert (stack + [f])[..|stack|] == stack;
  }

  lemma PendingTwo(stack: seq<Frame>, f: Frame, g: Frame)
    ensures Pending(stack + [f, g]) == Pending(stack) + One(f.EmitDisconnect?) + One(g.EmitDisconnect?)
  {
    PendingSnoc(stack, f);
    PendingSnoc(stack + [f], g);
    assert (stack + [f]) + [g] == stack + [f, g];
  }

  predicate DisconnectsTold(w: World) {
    w.disconnects == w.disconnectEvents + Pending(w.stack)
  }

  /** Frames added on top of `below`, none of them a disconnect's. */
  lemma PlainFrames(below: seq<Frame>, stack: seq<Frame>)
    requires below <= stack && |stack| <= |below| + 2
    requires forall i :: |below| <= i < |stack| ==> !stack[i].EmitDisconnect?
    ensures Pending(stack) == Pending(below)
  {
    if |stack| == |below| + 1 {
      assert stack == below + [stack[|below|]];
      PendingSnoc(below, stack[|below|]);
    } else if |stack| == |below| + 2 {
      assert stack == below + [stack[|below|], stack[|below| + 1]];
      PendingTwo(below, stack[|below|], stack[|below| + 1]);
    } else {
      assert stack == below;
    }
  }

  /** Steps that neither call `disconnect` nor tell its result. */
  predicate Unrelated(w: World, v: World, below: seq<Frame>) {
    && v.disconnects == w.disconnects && v.disconnectEvents == w.disconnectEvents
    && below <= v.stack && |v.stack| <= |below| + 2
    && forall i :: |below| <= i < |v.stack| ==> !v.stack[i].EmitDisconnect?
  }

  /** The stack a step starts from: the frame it runs is taken off. */
  function Base(w: World, l: Label): seq<Frame>
    requires Enabled(w, l)
  {
    if l.RunTls? || l.RunClearConnect? || l.RunEmitDisconnect? || l.UserReturn? then Pop(w).stack else w.stack
  }

  lemma TlsUnrelated(w: World, l: Label)
    requires Enabled(w, l) && l.RunTls?
    ensures Unrelated(w, Step(w, l), Base(w, l))
  {
    hide Drain, NextOutbound, Flushed, Req.Submit, Req.AfterClose;
  }

  lemma WorkUnrelated(w: World, l: Label)
    requires Enabled(w, l) && (l.Connect? || l.Write? || l.RunDecrypt? || l.ConnectDone? || l.WriteDone?)
    ensures Unrelated(w, Step(w, l), Base(w, l))
  {
    hide Unrelated;
    if l.Connect? || l.Write? {
      RequestUnrelated(w, l);
    } else {
      ResultUnrelated(w, l);
    }
  }

  lemma RequestUnrelated(w: World, l: Label)
    requires Enabled(w, l) && (l.Connect? || l.Write?)
    ensures Unrelated(w, Step(w, l), Base(w, l))
  {
    hide WriteData, Written, Req.Submit;
  }

  lemma ResultUnrelated(w: World, l: Label)
    requires Enabled(w, l) && (l.RunDecrypt? || l.ConnectDone? || l.WriteDone?)
    ensures Unrelated(w, Step(w, l), Base(w, l))
  {
    hide UnwrapEngine, ConnectResult, Req.Complete;
    if l.ConnectDone? {
      ConnectUnrelated(w, l.id, l.status, l.pair, l.hello);
    }
  }

  lemma ConnectUnrelated(w: World, id: nat, status: int, pair: bool, hello: Answer)
    requires Enabled(w, ConnectDone(id, status, pair, hello))
    ensures Unrelated(w, ConnectResult(w, id, status, pair, hello), w.stack)
  {
    hide AfterBegin, Shaken, Req.Complete;
  }

  lemma OtherUnrelated(w: World, l: Label)
    requires Enabled(w, l) && !l.RunTls? && !l.Disconnect? && !l.RunEmitDisconnect?
    requires !l.Connect? && !l.Write? && !l.RunDecrypt? && !l.ConnectDone? && !l.WriteDone?
    ensures Unrelated(w, Step(w, l), Base(w, l))
  {
    hide Req.AfterClose, Req.AfterInit, Req.Finish, Req.AfterCloseCallback;
  }

  lemma PoppedFrame(w: World, l: Label)
    requires Enabled(w, l) && Base(w, l) != w.stack
    ensures w.stack != [] && Pending(w.stack) == Pending(Base(w, l)) + One(l.RunEmitDisconnect?)
  {
  }

  lemma DisconnectCounts(w: World, a: Answer)
    requires DisconnectsTold(w) && Enabled(w, Disconnect(a))
    ensures DisconnectsTold(DoDisconnect(w, a))
  {
    hide AfterShutdown;
    PendingSnoc(w.stack, User);
    PendingTwo(w.stack, EmitDisconnect, TlsProcess);
  }

  lemma EmitCounts(w: World)
    requires DisconnectsTold(w) && Enabled(w, RunEmitDisconnect)
    ensures DisconnectsTold(Step(w, RunEmitDisconnect))
  {
    PendingSnoc(Pop(w).stack, User);
  }

  lemma StepCounts(w: World, l: Label)
    requires DisconnectsTold(w) && Enabled(w, l)
    ensures DisconnectsTold(Step(w, l))
  {
    hide Step, Enabled, Base, Pending, DoDisconnect;
    if l.Disconnect? {
      DisconnectCounts(w, l.shut);
      DisconnectIsStep(w, l);
    } else if l.RunEmitDisconnect? {
      EmitCounts(w);
    } else {
      if l.RunTls? {
        TlsUnrelated(w, l);
      } else if l.Connect? || l.Write? || l.RunDecrypt? || l.ConnectDone? || l.WriteDone? {
        WorkUnrelated(w, l);
      } else {
        OtherUnrelated(w, l);
      }
      PlainFrames(Base(w, l), Step(w, l).stack);
      if Base(w, l) != w.stack {
        PoppedFrame(w, l);
      }
    }
  }

  lemma DisconnectIsStep(w: World, l: Label)
    requires Enabled(w, l) && l.Disconnect?
    ensures Step(w, l) == DoDisconnect(w, l.shut)
  {
    hide DoDisconnect;
  }

  lemma {:induction false} RunCounts(w: World, ls: seq<Label>)
    requires DisconnectsTold(w) && Valid(w, ls)
    ensures DisconnectsTold(Run(w, ls))
    decreases ls
  {
    hide Step, Enabled, DisconnectsTold;
    if ls != [] {
      StepCounts(w, ls[0]);
      RunCounts(Step(w, ls[0]), ls[1..]);
    }
  }

  /** Every call of `disconnect` is answered once, success or failure, by the time its caller is done. */
  lemma DisconnectsAnswered(w: World)
    requires Reachable(w)
    ensures w.disconnectEvents <= w.disconnects
    ensures w.stack == [] ==> w.disconnectEvents == w.disconnects
  {
    hide DisconnectsTold;
    var ls :| Reaches(ls, w);
    assert DisconnectsTold(START) by { StartCounts(); }
    RunCounts(START, ls);
    assert w.disconnects == w.disconnectEvents + Pending(w.stack) by { CountsOf(w); }
  }

  lemma CountsOf(w: World)
    requires DisconnectsTold(w)
    ensures w.disconnects == w.disconnectEvents + Pending(w.stack)
  {
  }

  lemma StartCounts()
    ensures DisconnectsTold(START)
  {
  }

  // ---- when user code is called ----

  /** A step leaves user code running on top of what was there. */
  predicate Calls(w: World, v: World) {
    |v.stack| > |w.stack| && AtTop(v, User)
  }

  /** Which calls of the user's own come back to user code before they return. */
  lemma UserCalledBack(w: World, l: Label)
    requires Enabled(w, l) && (l.Connect? || l.Write? || l.Disconnect?)
    ensures Calls(w, Step(w, l)) <==>
              match l
              case Connect(_, rc) => rc != 0
              case Write(_, _, rc) => rc != 0
              case Disconnect(shut) => shut.rv < 0
  {
    hide WriteData, Written, AfterShutdown, Req.Submit;
  }

  /** Which completions and which turns of the decrypt loop are for the user. */
  lemma UserCalledBy(w: World, l: Label)
    requires Enabled(w, l) && (l.RunDecrypt? || l.ConnectDone? || l.WriteDone?)
    ensures Calls(w, Step(w, l)) <==>
              match l
              case RunDecrypt(u) => UnwrapEngine(w.session.value.engine, w.activity.input, w.inbound, u).2 != []
              case ConnectDone(_, status, _, _) => status != 0
              case WriteDone(id, _) => !w.purposes[id].ForFlush?
  {
    hide UnwrapEngine, AfterBegin, Shaken, Req.Complete;
  }
}
