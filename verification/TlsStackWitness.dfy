/**
 * Runs that exist: a handshake that succeeds, a stack that is closed, and the failures the other modules
 * give exact conditions for, each at a concrete input.
 */
module TlsStackWitness {
  import opened Prelude
  import opened Buffers
  import opened Engine
  import opened SslSocket
  import opened TlsStack
  import Flush = TlsStackFlush
  import Req = TcpRequests

  /** User code returns. */
  lemma Returned(w0: World, below: seq<Frame>) returns (w: World)
    requires Reachable(w0) && w0.stack == below + [User]
    ensures Reachable(w) && w == w0.(stack := below)
  {
    StepReachable(w0, UserReturn);
    w := Step(w0, UserReturn);
  }

  /** The completed request's reference deletes itself. */
  lemma Finished(w0: World) returns (w: World)
    requires Reachable(w0) && w0.stack == [] && w0.activity.Completing?
    ensures Reachable(w) && w == w0.(activity := Idle, tcp := Req.Finish(w0.tcp, w0.activity.id))
  {
    StepReachable(w0, RunFinish);
    w := Step(w0, RunFinish);
  }

  /** The TCP socket initialised and nothing else done. */
  lemma Opened() returns (w: World)
    ensures Reachable(w)
    ensures w == START.(tcp := Req.AfterInit(Req.CREATED, 0), hooks := {HookClose, HookRead})
  {
    StartReachable();
    StepReachable(START, InitTcp(0));
    w := Step(START, InitTcp(0));
    assert {HookInit, HookClose, HookRead} - {HookInit} == {HookClose, HookRead};
    assert w.stack == [] + [User];
    w := Returned(w, []);
  }

  lemma Requested(callback: bool) returns (w: World)
    ensures Reachable(w) && Quiet(w) && w.tcp.phase.Open?
    ensures |w.tcp.requests| == 1 && w.tcp.inflight == {0} && w.tcp.publishing == {}
    ensures w.purposes == [ForConnect(callback)] && w.connectEvent == None && w.fired == []
    ensures w.session == None && w.outbound == None && w.inbound == None && HookRead in w.hooks
  {
    w := Opened();
    StepReachable(w, Connect(callback, 0));
    w := Step(w, Connect(callback, 0));
  }

  /** A client's first handshake step: it says hello and waits for the peer. */
  const HELLO: Answer := Answer(-1, WantRead, [1], false)

  /** ... connected, and `tlsProcess` called for the first time. */
  lemma Connected(callback: bool) returns (w: World)
    ensures Reachable(w)
    ensures w.stack == [TlsProcess] && w.activity == Completing(0) && w.tcp.phase.Open?
    ensures w.session == Some(NewSession(0, true, HELLO)) && w.outbound == None && w.inbound == None
    ensures w.connectEvent == (if callback then Some(0) else None) && w.fired == []
    ensures |w.tcp.requests| == 1 && w.tcp.inflight == {} && w.tcp.publishing == {0}
    ensures w.purposes == [ForConnect(callback)] && HookRead in w.hooks
  {
    w := Requested(callback);
    StepReachable(w, ConnectDone(0, 0, true, HELLO));
    w := Step(w, ConnectDone(0, 0, true, HELLO));
    assert {0} - {0} == {};
  }

  /** The engine and its account once the hello has been handed over. */
  const GREETED: Session := Session(0, Tls(StateClosed, false, false, [], [], [1], [], []), [1], [1], 0, [])

  lemma HelloFlushed(outbound: Option<Buf>)
    requires outbound == None
    ensures Flushed(NewSession(0, true, HELLO), NextOutbound(outbound), ErrorNone) == GREETED
    ensures Drain(NewSession(0, true, HELLO).engine, NextOutbound(outbound), 0, ErrorNone).1.Remaining() == 1
  {
    hide Drain, NextOutbound;
    var s := NewSession(0, true, HELLO);
    var b := NextOutbound(outbound);
    assert b.Capacity() > 0 by { DefaultRoom(); }
    DrainConserves(s.engine, b, 0, ErrorNone);
    var (e, o) := Drain(s.engine, b, 0, ErrorNone);
    assert o.Window() + e.bioOut == [1] && |o.Window()| == 1;
    assert o.Window() == [1] && e.bioOut == [];
    DrainKeepsRest(s.engine, b);
  }

  lemma DefaultRoom()
    ensures NextOutbound(None).Capacity() > 0
  {
  }

  lemma DrainKeepsRest(e: Tls, b: Buf)
    requires b == b.Clear() && b.Capacity() > 0 && e.bioOut != []
    ensures var f := Drain(e, b, 0, ErrorNone).0; f == e.(bioOut := f.bioOut)
  {
  }

  /** The hello is handed to the parent. */
  lemma Hello(callback: bool) returns (w: World)
    ensures Reachable(w) && w.stack == [] && w.activity == Completing(0) && w.tcp.phase.Open?
    ensures w.session == Some(GREETED) && w.outbound.Some? && w.inbound == None
    ensures w.connectEvent == (if callback then Some(0) else None) && w.fired == []
    ensures |w.tcp.requests| == 2 && w.tcp.inflight == {1} && w.tcp.publishing == {0}
    ensures w.purposes == [ForConnect(callback), ForFlush] && HookRead in w.hooks
  {
    hide Drain, NextOutbound, Flushed;
    var w0 := Connected(callback);
    HelloFlushed(w0.outbound);
    StepReachable(w0, RunTls(ErrorNone, 0));
    w := Step(w0, RunTls(ErrorNone, 0));
  }

  /** A call of `tlsProcess` that finds nothing to wrap and no handshake finished. */
  lemma Idled(w0: World) returns (w: World)
    requires Reachable(w0) && w0.stack == [TlsProcess] && w0.tcp.phase.Open?
    requires w0.session.Some? && Status(w0.session.value.engine).NeedUnwrap?
    ensures Reachable(w) && w == w0.(stack := [])
  {
    StepReachable(w0, RunTls(ErrorNone, 0));
    w := Step(w0, RunTls(ErrorNone, 0));
  }

  /** A quiet socket whose hello is out, the handshake waiting for the peer. */
  predicate Waits(w: World, callback: bool) {
    && Quiet(w) && w.tcp.phase.Open? && w.session == Some(GREETED) && w.outbound.Some? && w.inbound == None
    && w.connectEvent == (if callback then Some(0) else None) && w.fired == []
    && |w.tcp.requests| == 2 && w.tcp.inflight == {} && w.tcp.publishing == {}
    && w.purposes == [ForConnect(callback), ForFlush] && HookRead in w.hooks
  }

  lemma Waiting(callback: bool) returns (w: World)
    ensures Reachable(w) && Waits(w, callback)
  {
    w := Hello(callback);
    w := Finished(w);
    w := HelloDone(w);
    w := Idled(w);
    w := Finished(w);
  }

  lemma HelloDone(w0: World) returns (w: World)
    requires Reachable(w0) && Quiet(w0) && w0.tcp.phase.Open? && w0.tcp.inflight == {1} && w0.tcp.publishing == {}
    requires |w0.tcp.requests| == 2 && |w0.purposes| == 2 && w0.purposes[1].ForFlush?
    ensures Reachable(w) && w.stack == [TlsProcess] && w.activity == Completing(1)
    ensures w == w0.(tcp := w.tcp, stack := w.stack, activity := w.activity)
    ensures w.tcp.phase.Open? && w.tcp.requests == w0.tcp.requests
    ensures w.tcp.inflight == {} && w.tcp.publishing == {1}
  {
    StepReachable(w0, WriteDone(1, 0));
    w := Step(w0, WriteDone(1, 0));
    assert {1} - {1} == {};
  }

  /** The engine once the peer's answer has been unwrapped, `last` answering the handshake step. */
  function PeerSession(last: Answer): Session {
    GREETED.(engine := AfterHandshake(GREETED.engine.(fed := [9]), last))
  }

  /** The peer's answer arrives and is unwrapped; the user has no read buffer yet. */
  lemma PeerAnswered(callback: bool, last: Answer) returns (w: World)
    ensures Reachable(w) && w.stack == [TlsProcess] && w.activity.Idle? && w.tcp.phase.Open?
    ensures w.session == Some(PeerSession(last)) && w.outbound.Some?
    ensures w.connectEvent == (if callback then Some(0) else None) && w.fired == []
    ensures |w.tcp.requests| == 2 && w.tcp.inflight == {} && w.tcp.publishing == {}
    ensures w.purposes == [ForConnect(callback), ForFlush]
  {
    var w0 := Waiting(callback);
    StepReachable(w0, ParentRead([9]));
    w := Step(w0, ParentRead([9]));
    w := Unwrapped(w, last);
    w := ReadOver(w);
  }

  lemma Unwrapped(w0: World, last: Answer) returns (w: World)
    requires Reachable(w0) && w0.stack == [] && w0.activity == Reading([9], true, None)
    requires w0.session == Some(GREETED) && w0.inbound == None
    ensures Reachable(w) && w.activity.Reading? && !w.activity.again
    ensures w == w0.(activity := w.activity, session := Some(PeerSession(last)), shaken := w.shaken)
  {
    var u := UnwrapAnswer(1, ErrorNone, last, NoData(-1), WantRead, [], last.done);
    assert GREETED.emitted + [] == GREETED.emitted;
    assert [9 as Byte][..1] == [9] && GREETED.engine.fed + [9] == [9];
    StepReachable(w0, RunDecrypt(u));
    w := Step(w0, RunDecrypt(u));
  }

  lemma ReadOver(w0: World) returns (w: World)
    requires Reachable(w0) && w0.stack == [] && w0.activity.Reading? && !w0.activity.again
    ensures Reachable(w) && w == w0.(activity := Idle, stack := [TlsProcess], lost := w.lost)
  {
    StepReachable(w0, RunReadEnd);
    w := Step(w0, RunReadEnd);
  }

  /** A call of `tlsProcess` that finds the handshake finished, up to the connect callback. */
  lemma Announced(w0: World) returns (w: World)
    requires Reachable(w0) && w0.stack == [TlsProcess] && w0.tcp.phase.Open?
    requires w0.session.Some? && w0.session.value.engine.state.StateHandshaked?
    ensures Reachable(w)
    ensures w == (if w0.connectEvent.None? then w0.(stack := [], handshaked := true)
                  else w0.(stack := [ClearConnect(w0.connectEvent.value), User], handshaked := true,
                           fired := w0.fired + [(w0.connectEvent.value, true)]))
  {
    StepReachable(w0, RunTls(ErrorNone, 0));
    w := Step(w0, RunTls(ErrorNone, 0));
  }

  lemma Cleared(w0: World) returns (w: World)
    requires Reachable(w0) && w0.stack == [ClearConnect(0)]
    ensures Reachable(w) && w == w0.(stack := [], connectEvent := None)
  {
    StepReachable(w0, RunClearConnect);
    w := Step(w0, RunClearConnect);
  }

  /** The last handshake step of a client: it is done, and `flight` is its last flight. */
  function Done(flight: seq<Byte>): Answer {
    Answer(1, ErrorNone, flight, true)
  }

  /** A quiet socket whose handshake is finished. */
  predicate Shook(w: World, callback: bool, flight: seq<Byte>) {
    && Quiet(w) && w.tcp.phase.Open? && w.handshaked && w.outbound.Some?
    && w.session == Some(PeerSession(Done(flight))) && w.fired == (if callback then [(0, true)] else [])
    && |w.tcp.requests| == 2 && w.tcp.inflight == {} && w.tcp.publishing == {}
    && w.purposes == [ForConnect(callback), ForFlush]
  }

  lemma Shaken(callback: bool, flight: seq<Byte>) returns (w: World)
    ensures Reachable(w) && Shook(w, callback, flight)
  {
    w := PeerAnswered(callback, Done(flight));
    w := Announced(w);
    if callback {
      assert w.stack == [ClearConnect(0)] + [User] && w.fired == [(0, true)];
      w := Returned(w, [ClearConnect(0)]);
      w := Cleared(w);
    }
  }

  /** A connect without a callback succeeds, handshake included, and nobody is told. */
  lemma SilentConnect() returns (w: World)
    ensures Reachable(w) && Quiet(w) && w.handshaked
    ensures w.session.Some? && w.session.value.engine.state.StateHandshaked?
    ensures |w.purposes| == 2 && w.purposes[0] == ForConnect(false) && w.fired == []
  {
    w := Shaken(false, []);
  }

  /** A connect succeeds and is announced, its engine's last flight still in the BIO, nothing in flight. */
  lemma SuccessBeforeFlush() returns (w: World)
    ensures Reachable(w) && Quiet(w) && w.fired == [(0, true)]
    ensures w.session.Some? && w.session.value.engine.bioOut == [7] && w.session.value.handed == [1]
    ensures w.tcp.inflight == {} && Flush.HasOutput(w) && !Flush.FlushInFlight(w)
  {
    w := Shaken(true, [7]);
  }

  /** A handshake fails for good, and the connect callback is still stored and has not been called. */
  lemma SilentFailure() returns (w: World)
    ensures Reachable(w) && Quiet(w) && w.connectEvent == Some(0) && w.fired == []
    ensures w.session.Some? && w.session.value.engine.state.StateError?
  {
    w := PeerAnswered(true, Answer(-1, ErrorSsl, [], false));
    w := Idled(w);
  }

  /** A user write that the parent accepts. */
  lemma Wrote(w0: World, a: Answer) returns (w: World)
    requires Reachable(w0) && Quiet(w0) && w0.tcp.phase.Open?
    requires w0.session.Some? && w0.outbound.Some? && WriteAnswer(w0.session.value.engine, a)
    ensures Reachable(w) && w == DoWrite(w0, a, ErrorNone, 0)
  {
    hide DoWrite;
    StepReachable(w0, Write(a, ErrorNone, 0));
    w := Step(w0, Write(a, ErrorNone, 0));
  }

  lemma Sized(w0: World, room: nat) returns (w: World)
    requires Reachable(w0) && Quiet(w0)
    ensures Reachable(w) && w == w0.(outbound := Some(Fresh(room, room)))
  {
    StepReachable(w0, SetOutbound(Fresh(room, room)));
    w := Step(w0, SetOutbound(Fresh(room, room)));
  }

  /** `SSL_write` fails before the handshake is over, and four bytes no engine produced go to the parent. */
  lemma StaleWrite() returns (w: World)
    ensures Reachable(w) && w.session.Some?
    ensures var s := w.session.value;
            s.stale == 4 && |s.handed| == 5 && s.engine.produced == [1]
            && s.handed + s.engine.bioOut != s.engine.produced
  {
    hide DoWrite;
    var w0 := Waiting(true);
    w0 := Sized(w0, 4);
    var a := Answer(-1, WantRead, [], false);
    w := Wrote(w0, a);
    FourStale(w0, a);
  }

  lemma FourStale(w: World, a: Answer)
    requires Enabled(w, Write(a, ErrorNone, 0)) && w.outbound == Some(Fresh(4, 4))
    requires a == Answer(-1, WantRead, [], false) && w.session == Some(GREETED)
    ensures var v := DoWrite(w, a, ErrorNone, 0);
            && v.session.Some? && v.session.value.stale == 4 && |v.session.value.handed| == 5
            && v.session.value.engine.produced == [1]
  {
    hide WriteData, Drain, Req.Submit;
    WriteConservesIff(GREETED.engine, w.outbound.value.Clear(), a, ErrorNone);
  }

  /**
   * A write larger than the outbound buffer, on a connection that is established: it completes, and the
   * rest of it stays where it is.
   */
  lemma StrandedWrite() returns (w: World)
    ensures Reachable(w) && Quiet(w) && Flush.HasOutput(w) && !Flush.FlushInFlight(w)
    ensures w.handshaked && Flush.Room(w)
  {
    hide DoWrite;
    var w0 := Shaken(false, []);
    w0 := Sized(w0, 1);
    var a := Answer(1, ErrorNone, [1, 2], true);
    w := Wrote(w0, a);
    HalfWritten(w0, a);
    WriteRequested(w0, a);
    w := Completed(w);
    forall id | id in w.tcp.inflight ensures false {}
  }

  /** Two bytes written through a buffer of one: one byte goes, one stays. */
  lemma HalfWritten(w: World, a: Answer)
    requires Enabled(w, Write(a, ErrorNone, 0)) && w.outbound == Some(Fresh(1, 1))
    requires a == Answer(1, ErrorNone, [1, 2], true) && w.session == Some(PeerSession(Done([])))
    ensures var v := DoWrite(w, a, ErrorNone, 0);
            Flush.HasOutput(v) && v.outbound.Some? && v.outbound.value.Capacity() == 1
  {
    hide WriteData, Drain, Req.Submit;
    var e, b := w.session.value.engine, w.outbound.value.Clear();
    WriteConservesIff(e, b, a, ErrorNone);
    var (f, o) := WriteData(e, b, a, ErrorNone);
    assert |o.Window() + f.bioOut| == 2 && |o.Window()| == 1;
  }

  lemma WriteRequested(w: World, a: Answer)
    requires Enabled(w, Write(a, ErrorNone, 0))
    requires |w.tcp.requests| == 2 && |w.purposes| == 2 && w.tcp.inflight == {}
    ensures var v := DoWrite(w, a, ErrorNone, 0);
            && v.tcp.inflight == {2} && |v.tcp.requests| == 3 && v.tcp.phase == w.tcp.phase
            && v.tcp.publishing == w.tcp.publishing && |v.purposes| == 3 && v.purposes[2].ForUser?
            && v.stack == w.stack && v.activity == w.activity && v.handshaked == w.handshaked
  {
    hide WriteData, Written;
  }

  /** The write of the user completes and is over. */
  lemma Completed(w0: World) returns (w: World)
    requires Reachable(w0) && Quiet(w0) && w0.tcp.phase.Open? && w0.tcp.inflight == {2} && w0.tcp.publishing == {}
    requires |w0.tcp.requests| == 3 && |w0.purposes| == 3 && w0.purposes[2].ForUser?
    ensures Reachable(w) && Quiet(w) && w.tcp.inflight == {}
    ensures w.session == w0.session && w.outbound == w0.outbound && w.handshaked == w0.handshaked
  {
    w := Informed(w0);
    w := Returned(w, []);
    w := Finished(w);
  }

  lemma Informed(w0: World) returns (w: World)
    requires Reachable(w0) && Quiet(w0) && w0.tcp.phase.Open? && w0.tcp.inflight == {2} && w0.tcp.publishing == {}
    requires |w0.tcp.requests| == 3 && |w0.purposes| == 3 && w0.purposes[2].ForUser?
    ensures Reachable(w) && w.stack == [] + [User] && w.activity == Completing(2) && w.tcp.inflight == {}
    ensures w.session == w0.session && w.outbound == w0.outbound && w.handshaked == w0.handshaked
  {
    StepReachable(w0, WriteDone(2, 0));
    w := Step(w0, WriteDone(2, 0));
    assert {2} - {2} == {};
  }

  /** The TLS socket closes its parent, and the close callback runs to its end. */
  lemma ClosedDown() returns (w: World)
    ensures Reachable(w) && Quiet(w) && w.tcp.phase.Closed? && w.parentCloses == 1
    ensures w.tcpCloseEvents == 1 && w.sslCloseEvents == 1 && w.hooks == {}
  {
    w := CloseBegun();
    w := Returned(w, []);
    w := HookCalled(w);
    w := Returned(w, []);
    w := SslCleared(w);
    w := Returned(w, []);
    w := TcpCleared(w);
  }

  /** `close`, and libuv's close callback as far as the user's CloseEvent listeners. */
  lemma CloseBegun() returns (w: World)
    ensures Reachable(w) && w.stack == [] + [User] && w.activity == ClosingCallback(BeforeHook)
    ensures w.closing && w.parentCloses == 1 && w.tcpCloseEvents == 1 && w.sslCloseEvents == 0
  {
    w := CloseAsked();
    StepReachable(w, CloseCallback);
    w := Step(w, CloseCallback);
  }

  lemma CloseAsked() returns (w: World)
    ensures Reachable(w) && Quiet(w) && w.tcp.phase.Closing? && w.tcp.inflight == {} && w.tcp.publishing == {}
    ensures w.closing && w.parentCloses == 1 && w.tcpCloseEvents == 0 && w.sslCloseEvents == 0
  {
    w := Opened();
    StepReachable(w, Close);
    w := Step(w, Close);
  }

  lemma HookCalled(w0: World) returns (w: World)
    requires Reachable(w0) && w0.stack == [] && w0.activity == ClosingCallback(BeforeHook) && w0.closing
    ensures Reachable(w) && w.stack == [] + [User] && w.activity == ClosingCallback(SslEmitted)
    ensures w.parentCloses == w0.parentCloses && w.tcpCloseEvents == w0.tcpCloseEvents
    ensures w.sslCloseEvents == w0.sslCloseEvents + 1
  {
    StepReachable(w0, RunHook);
    w := Step(w0, RunHook);
  }

  lemma SslCleared(w0: World) returns (w: World)
    requires Reachable(w0) && w0.stack == [] && w0.activity == ClosingCallback(SslEmitted)
    ensures Reachable(w) && w.stack == [] + [User] && w.activity == ClosingCallback(AfterHook)
    ensures w.parentCloses == w0.parentCloses && w.tcpCloseEvents == w0.tcpCloseEvents
    ensures w.sslCloseEvents == w0.sslCloseEvents
  {
    StepReachable(w0, RunSslOffAll);
    w := Step(w0, RunSslOffAll);
  }

  lemma TcpCleared(w0: World) returns (w: World)
    requires Reachable(w0) && w0.stack == [] && w0.activity == ClosingCallback(AfterHook)
    ensures Reachable(w) && Quiet(w) && w.tcp.phase.Closed? && w.hooks == {}
    ensures w.parentCloses == w0.parentCloses && w.tcpCloseEvents == w0.tcpCloseEvents
    ensures w.sslCloseEvents == w0.sslCloseEvents
  {
    StepReachable(w0, RunTcpOffAll);
    w := Step(w0, RunTcpOffAll);
  }
}
