/**
 * The TLS socket's two loops (unio/src/net/ssl_socket.cc): `tlsProcess`, which re-enters itself through
 * write completions and, when the parent refuses a write, recursively; and the decrypt loop run on the
 * parent's read event. User callbacks are opaque here; TlsStack lets them call back in.
 *
 * Premises: a parent write captures its bytes when it is submitted; inbound buffers are not empty.
 */
module SslSocket {
  import opened Prelude
  import opened Buffers
  import opened Engine

  const DEFAULT_BUFFER: nat := 8192

  /** The socket and, of its parent, what `tlsProcess` does to it. */
  datatype Ssl = Ssl(
    engine: Tls,
    outbound: Option<Buf>,
    reading: bool,                 // an inbound buffer is set
    connectEvent: Option<nat>,     // the connect callback still to be called
    handshaked: bool,
    closing: bool,
    writes: seq<seq<Byte>>,        // what parent writes captured, in order
    fired: seq<nat>,               // connect callbacks called with success
    parentCloses: nat,
    refusals: seq<bool>            // the parent's answers to the writes to come; none left: accepted
  )

  /** The outbound buffer as a flush or a write starts with it: cleared, and made if there is none. */
  function NextOutbound(outbound: Option<Buf>): (o: Buf)
    ensures o.Ordered() && o == o.Clear()
    ensures outbound.Some? ==> o == outbound.value.Clear()
  {
    match outbound
    case None => Fresh(DEFAULT_BUFFER, DEFAULT_BUFFER).Clear()
    case Some(b) => b.Clear()
  }

  /** A missing buffer is made with 8192 bytes, one that is there keeps its size; both are empty and whole. */
  lemma OutboundCapacity(outbound: Option<Buf>)
    ensures var o := NextOutbound(outbound);
            && o.Capacity() == (if outbound.None? then 8192 else outbound.value.Capacity())
            && o.position == 0 && o.limit == o.Capacity()
  {
  }

  /** The state after one `wrap(nullptr, ...)` and, if it yielded anything, one parent write. */
  function FlushRound(s: Ssl, error: ErrorClass): (t: Ssl)
    ensures |t.writes| > |s.writes| ==> |t.engine.bioOut| < |s.engine.bioOut|
  {
    hide Drain;
    DrainConserves(s.engine, NextOutbound(s.outbound), 0, error);
    var (e, o) := Drain(s.engine, NextOutbound(s.outbound), 0, error);
    if o.Remaining() == 0 then s.(engine := e, outbound := Some(o))
    else s.(engine := e, outbound := Some(o), writes := s.writes + [o.Window()],
            refusals := if s.refusals == [] then [] else s.refusals[1..])
  }

  predicate Refused(s: Ssl) {
    s.refusals != [] && s.refusals[0]
  }

  function AfterClose(s: Ssl, fromParent: bool): Ssl {
    if s.closing then s
    else s.(closing := true, reading := false,
            parentCloses := s.parentCloses + if fromParent then 0 else 1)
  }

  /** The connect callback, if one is still to be called, is called with success and forgotten. */
  function AfterFinished(s: Ssl): Ssl {
    var t := s.(handshaked := true);
    if s.connectEvent.Some? then t.(fired := s.fired + [s.connectEvent.value], connectEvent := None) else t
  }

  /** `tlsProcess`; a refused write calls its completion, hence `tlsProcess`, before returning. */
  function Pump(s: Ssl, error: ErrorClass): Ssl
    decreases |s.engine.bioOut|
  {
    match Status(s.engine)
    case NeedWrap =>
      var t := FlushRound(s, error);
      if |t.writes| > |s.writes| && Refused(s) then Pump(t, error) else t
    case Finished => AfterFinished(s)
    case ClosingStatus => AfterClose(s, false)
    case _ => s
  }

  function Handed(s: Ssl): seq<Byte> {
    Concat(s.writes)
  }

  function Room(s: Ssl): nat {
    NextOutbound(s.outbound).Capacity()
  }

  lemma AppendChunk(chunks: seq<seq<Byte>>, w: seq<Byte>, rest: seq<Byte>, all: seq<Byte>)
    requires w + rest == all
    ensures Concat(chunks + [w]) + rest == Concat(chunks) + all
    ensures w == [] ==> rest == all
  {
    ConcatSnoc(chunks, w);
    assert (Concat(chunks) + w) + rest == Concat(chunks) + (w + rest);
  }

  /** One round moves the front of the BIO into one parent write and nothing else. */
  lemma RoundConserves(s: Ssl, error: ErrorClass)
    ensures var t := FlushRound(s, error);
            Handed(t) + t.engine.bioOut == Handed(s) + s.engine.bioOut && t.engine.produced == s.engine.produced
  {
    hide Drain;
    DrainConserves(s.engine, NextOutbound(s.outbound), 0, error);
    var (e, o) := Drain(s.engine, NextOutbound(s.outbound), 0, error);
    AppendChunk(s.writes, o.Window(), e.bioOut, s.engine.bioOut);
  }

  /** It moves as much as fits. */
  lemma RoundMeasures(s: Ssl, error: ErrorClass)
    ensures var t := FlushRound(s, error);
            && |t.engine.bioOut| == |s.engine.bioOut| - Min(Room(s), |s.engine.bioOut|)
            && |t.writes| == |s.writes| + (if Room(s) > 0 && s.engine.bioOut != [] then 1 else 0)
  {
    hide Drain;
    DrainConserves(s.engine, NextOutbound(s.outbound), 0, error);
    var (e, o) := Drain(s.engine, NextOutbound(s.outbound), 0, error);
    LengthOfRest(o.Window(), e.bioOut, s.engine.bioOut);
  }

  lemma LengthOfRest(w: seq<Byte>, rest: seq<Byte>, all: seq<Byte>)
    requires w + rest == all
    ensures |rest| == |all| - |w|
  {
  }

  lemma RoundKeeps(s: Ssl, error: ErrorClass)
    ensures var t := FlushRound(s, error);
            && Room(t) == Room(s)
            && (Room(s) > 0 ==> t.engine.state == s.engine.state)
            && t.refusals == (if |t.writes| > |s.writes| && s.refusals != [] then s.refusals[1..] else s.refusals)
            && (t.connectEvent, t.closing, t.parentCloses, t.fired)
               == (s.connectEvent, s.closing, s.parentCloses, s.fired)
  {
    hide Drain;
    DrainConserves(s.engine, NextOutbound(s.outbound), 0, error);
  }

  /** However the parent answers, `tlsProcess` neither loses, repeats nor reorders an outbound byte. */
  lemma {:induction false} PumpConserves(s: Ssl, error: ErrorClass)
    ensures var t := Pump(s, error);
            Handed(t) + t.engine.bioOut == Handed(s) + s.engine.bioOut && t.engine.produced == s.engine.produced
    decreases |s.engine.bioOut|
  {
    hide Drain, FlushRound;
    if Status(s.engine).NeedWrap? {
      RoundConserves(s, error);
      var t := FlushRound(s, error);
      if |t.writes| > |s.writes| && Refused(s) {
        PumpConserves(t, error);
      }
    }
  }

  /** ceil(n / c). */
  function Writes(n: nat, c: nat): nat
    requires c > 0
    decreases n
  {
    if n == 0 then 0 else 1 + Writes(n - Min(c, n), c)
  }

  function Ceil(n: nat, c: nat): nat
    requires c > 0
  {
    (n + c - 1) / c
  }

  lemma CeilStep(n: nat, c: nat)
    requires 0 < c
    ensures Ceil(0, c) == 0
    ensures 0 < n <= c ==> Ceil(n, c) == 1
    ensures n > c ==> Ceil(n, c) == 1 + Ceil(n - c, c)
  {
    DivUnique(c - 1, c, 0, c - 1);
    if 0 < n <= c {
      DivUnique(n + c - 1, c, 1, n - 1);
    } else if n > c {
      MulSuccessor((n - 1) / c, c);
      DivUnique(n + c - 1, c, (n - 1) / c + 1, (n - 1) % c);
    }
  }

  lemma {:induction false} WritesIsCeiling(n: nat, c: nat)
    requires c > 0
    ensures Writes(n, c) == Ceil(n, c)
    decreases n
  {
    hide Ceil;
    CeilStep(n, c);
    if n > c {
      WritesIsCeiling(n - c, c);
    } else if n > 0 {
      assert Writes(0, c) == 0;
    }
  }

  lemma MulSuccessor(q: nat, c: nat)
    ensures (q + 1) * c == q * c + c
  {
  }

  lemma DivUnique(a: nat, c: nat, q: nat, r: nat)
    requires c > 0 && r < c && a == q * c + r
    ensures a / c == q
  {
    var d := a / c - q;
    assert d * c == r - a % c;
    if d > 0 {
    } else if d < 0 {
    }
  }

  /** Completions keep calling `tlsProcess` until there is nothing to wrap. */
  function Settle(s: Ssl, error: ErrorClass): Ssl
    requires Room(s) > 0
    decreases |s.engine.bioOut|
  {
    if Status(s.engine).NeedWrap? then
      FlushProgress(s, error);
      Settle(Pump(s, error), error)
    else s
  }

  /** Each call in NeedWrap strictly shrinks what is pending, by as many writes as it submits. */
  lemma {:induction false} FlushProgress(s: Ssl, error: ErrorClass)
    requires Room(s) > 0 && Status(s.engine).NeedWrap?
    ensures var t := Pump(s, error);
            && |t.engine.bioOut| < |s.engine.bioOut|
            && Room(t) == Room(s)
            && t.engine.state == s.engine.state
            && |s.writes| < |t.writes|
            && |t.writes| - |s.writes| + Writes(|t.engine.bioOut|, Room(s)) == Writes(|s.engine.bioOut|, Room(s))
    decreases |s.engine.bioOut|
  {
    hide Drain, FlushRound;
    RoundMeasures(s, error);
    RoundKeeps(s, error);
    var t := FlushRound(s, error);
    if Refused(s) {
      assert Pump(s, error) == Pump(t, error);
      if Status(t.engine).NeedWrap? {
        FlushProgress(t, error);
      } else {
        NoFlushKeeps(t, error);
      }
    } else {
      assert Pump(s, error) == t;
    }
  }

  lemma NoFlushKeeps(s: Ssl, error: ErrorClass)
    requires !Status(s.engine).NeedWrap?
    ensures var t := Pump(s, error);
            t.writes == s.writes && t.engine == s.engine && t.outbound == s.outbound
  {
  }

  /**
   * The flush terminates. Unless the engine is handshaked, n pending bytes and capacity c take exactly
   * ceil(n / c) parent writes to leave NeedWrap, whichever of them are refused, and then everything
   * produced is handed over. A handshaked engine is not flushed at all: so pending bytes are flushed if
   * and only if there are none or the engine is not handshaked.
   */
  lemma FlushTakesCeilingWrites(s: Ssl, error: ErrorClass)
    requires Room(s) > 0
    ensures var t := Settle(s, error);
            && !Status(t.engine).NeedWrap?
            && (t.engine.bioOut == [] <==> s.engine.bioOut == [] || !s.engine.state.StateHandshaked?)
            && (s.engine.state.StateHandshaked? ==> t == s)
            && (!s.engine.state.StateHandshaked? ==>
                  && |t.writes| == |s.writes| + Ceil(|s.engine.bioOut|, Room(s))
                  && Handed(t) == Handed(s) + s.engine.bioOut)
  {
    hide Drain, FlushRound, Pump, Ceil;
    if !s.engine.state.StateHandshaked? {
      SettleWrites(s, error);
      WritesIsCeiling(|s.engine.bioOut|, Room(s));
      var handed := Handed(Settle(s, error));
      assert handed + [] == handed;
    }
  }

  /**
   * A handshake finished by an unwrap, as a client's last one is, whatever flight that step leaves in the
   * BIO: `tlsProcess` announces success and hands nothing over.
   */
  lemma HandshakedLeavesBytes(s: Ssl, n: nat, input: seq<Byte>, u: UnwrapAnswer, error: ErrorClass)
    requires s.connectEvent == Some(n) && !s.engine.initDone
    requires !FeedFails(input, u) && u.handshake.rv == 1
    ensures var shaken := s.(engine := UnwrapEngine(s.engine, input, None, u).0);
            var t := Pump(shaken, error);
            && t.fired == s.fired + [n] && t.writes == s.writes
            && t.handshaked && t.connectEvent.None? && Pump(t, error) == t
            && t.engine.bioOut == s.engine.bioOut + u.handshake.out
            && (Room(shaken) > 0 ==> Settle(shaken, error) == shaken)
  {
  }

  lemma {:induction false} SettleWrites(s: Ssl, error: ErrorClass)
    requires Room(s) > 0 && !s.engine.state.StateHandshaked?
    ensures var t := Settle(s, error);
            && t.engine.bioOut == []
            && |t.writes| == |s.writes| + Writes(|s.engine.bioOut|, Room(s))
            && Handed(t) + t.engine.bioOut == Handed(s) + s.engine.bioOut
    decreases |s.engine.bioOut|
  {
    hide Drain, FlushRound, Pump;
    if Status(s.engine).NeedWrap? {
      FlushProgress(s, error);
      PumpConserves(s, error);
      SettleWrites(Pump(s, error), error);
    }
  }

  /** In a closing state the parent is closed by a call that finds, or leaves, nothing to hand over. */
  lemma {:induction false} CloseFollowsFlush(s: Ssl, error: ErrorClass)
    ensures Pump(s, error).parentCloses > s.parentCloses ==>
              Pump(s, error).engine.bioOut == [] && Pump(s, error).engine.state.StateClosing?
    decreases |s.engine.bioOut|
  {
    hide Drain, FlushRound;
    if Status(s.engine).NeedWrap? {
      RoundKeeps(s, error);
      var t := FlushRound(s, error);
      if |t.writes| > |s.writes| && Refused(s) {
        RoundMeasures(s, error);
        CloseFollowsFlush(t, error);
      }
    }
  }

  /** `disconnect` up to its own event: `a` answers `SSL_shutdown`. */
  function AfterDisconnect(s: Ssl, a: Answer, error: ErrorClass): Ssl {
    var t := s.(reading := false, engine := AfterShutdown(s.engine, a));
    if a.rv >= 0 then Pump(t, error) else t
  }

  /**
   * A successful disconnect, its writes being completed, hands over everything the engine has produced,
   * the close alert included; and then, and only then, `tlsProcess` closes the parent, once.
   */
  lemma DisconnectFlushesThenCloses(s: Ssl, a: Answer, error: ErrorClass)
    requires Room(s) > 0 && a.rv >= 0
    ensures var t := s.(reading := false, engine := AfterShutdown(s.engine, a));
            var settled := Settle(t, error);
            var last := Pump(settled, error);
            && Handed(settled) == Handed(s) + (s.engine.bioOut + a.out) && settled.engine.bioOut == []
            && (!settled.closing ==> last.parentCloses == settled.parentCloses + 1 && last.closing)
            && Pump(last, error) == last
  {
    hide Drain, FlushRound, Ceil;
    var t := s.(reading := false, engine := AfterShutdown(s.engine, a));
    FlushTakesCeilingWrites(t, error);
    SettleState(t, error);
  }

  /** A call of `tlsProcess` does not start reading, and closing stops it. */
  lemma {:induction false} PumpReading(s: Ssl, error: ErrorClass)
    ensures Pump(s, error).reading ==> s.reading
    ensures Pump(s, error).parentCloses > s.parentCloses ==> !Pump(s, error).reading && Pump(s, error).closing
    decreases |s.engine.bioOut|
  {
    hide Drain, NextOutbound;
    if Status(s.engine).NeedWrap? {
      var t := FlushRound(s, error);
      if |t.writes| > |s.writes| && Refused(s) {
        PumpReading(t, error);
      }
    }
  }

  /**
   * What a disconnect has done by the time it returns, no completion having come in. Reading is cancelled
   * in any case. A shutdown that fails writes nothing and closes nothing. One that succeeds hands something
   * over if anything is pending, the close alert included, and else closes the parent.
   */
  lemma DisconnectActs(s: Ssl, a: Answer, error: ErrorClass)
    requires Room(s) > 0
    ensures var t := AfterDisconnect(s, a, error);
            && !t.reading
            && Handed(t) + t.engine.bioOut == Handed(s) + (s.engine.bioOut + a.out)
            && (a.rv < 0 ==> t.writes == s.writes && t.parentCloses == s.parentCloses && t.closing == s.closing)
            && (a.rv >= 0 && s.engine.bioOut + a.out != [] ==> |t.writes| > |s.writes|)
            && (a.rv >= 0 && s.engine.bioOut + a.out == [] && !s.closing ==>
                  t.parentCloses == s.parentCloses + 1 && t.closing && t.writes == s.writes)
  {
    hide Drain, FlushRound;
    var u := s.(reading := false, engine := AfterShutdown(s.engine, a));
    if a.rv >= 0 {
      PumpReading(u, error);
      PumpConserves(u, error);
      if u.engine.bioOut != [] {
        FlushProgress(u, error);
      }
    }
  }

  lemma {:induction false} SettleState(s: Ssl, error: ErrorClass)
    requires Room(s) > 0
    ensures Settle(s, error).engine.state == s.engine.state
    decreases |s.engine.bioOut|
  {
    hide Drain, FlushRound, Pump;
    if Status(s.engine).NeedWrap? {
      FlushProgress(s, error);
      SettleState(Pump(s, error), error);
    }
  }

  // ---- writing application data ----

  /** `write` up to the parent write, on a cleared outbound buffer: `a` answers `SSL_write`. */
  function WriteData(e: Tls, outbound: Buf, a: Answer, error: ErrorClass): (Tls, Buf)
    requires outbound.Ordered()
  {
    var (f, o, r) := WrapEngine(e, true, a, outbound, error);
    (f, o)
  }

  /**
   * The bytes a TLS write hands to its parent are the front of what the engine had pending, and the
   * account of produced bytes balances, if and only if `SSL_write` did not fail (or there was no room
   * for the stale bytes a failed one leaves in the window).
   */
  lemma WriteConservesIff(e: Tls, outbound: Buf, a: Answer, error: ErrorClass)
    requires outbound == outbound.Clear() && WriteAnswer(e, a)
    ensures var (f, o) := WriteData(e, outbound, a, error);
            && o.Ordered()
            && (o.Window() + f.bioOut == e.bioOut + a.out <==> a.rv >= 0 || outbound.Capacity() == 0)
            && f.produced == e.produced + a.out && o.Capacity() == outbound.Capacity()
            && f.record == e.record && f.plaintext == e.plaintext && f.fed == e.fed
            && (f.state == e.state || f.state.StateError?)
            && |o.Window()| == (if a.rv >= 0 then Min(outbound.Capacity(), |e.bioOut + a.out|) else outbound.Capacity())
            && (a.rv < 0 ==> f.bioOut == e.bioOut + a.out)
  {
    hide Drain;
    var f := AfterError(Foreign(e, a), a.rv, a.error);
    if a.rv >= 0 {
      DrainConserves(f, outbound, a.rv, error);
    } else if outbound.Capacity() == 0 {
      assert outbound.Window() + f.bioOut == f.bioOut;
    } else {
      assert |outbound.Window() + f.bioOut| > |f.bioOut|;
    }
  }

  // ---- the decrypt loop ----

  /** What the SocketReadEvent handler does about reading. */
  datatype ReadAction = KeepReading | CancelReading | SwitchBuffer(capacity: nat)

  function AfterAction(capacity: nat, act: ReadAction): Option<nat> {
    match act
    case KeepReading => Some(capacity)
    case CancelReading => None
    case SwitchBuffer(c) => Some(c)
  }

  /** OpenSSL's next answer: the tape's if it is a possible one, else nothing to read. */
  function Answered(e: Tls, input: seq<Byte>, capacity: Option<nat>, tape: seq<UnwrapAnswer>): (u: UnwrapAnswer)
    ensures UnwrapAnswerOk(e, input, capacity, u) && u.accepted <= |input|
  {
    if tape != [] && UnwrapAnswerOk(e, input, capacity, tape[0]) then tape[0]
    else UnwrapAnswer(0, WantWrite, Answer(-1, WantRead, [], e.initDone), NoData(-1), WantRead, [], e.initDone)
  }

  datatype Decrypt = Decrypt(
    engine: Tls, input: seq<Byte>, inbound: Option<nat>, emitted: seq<seq<Byte>>, last: DataResult, cancelled: bool)

  /** One turn: unwrap, emit what came out, let the handler act. */
  function DecryptTurn(d: Decrypt, tape: seq<UnwrapAnswer>, acts: seq<ReadAction>): Decrypt {
    var u := Answered(d.engine, d.input, d.inbound, tape);
    var (e, r, got) := UnwrapEngine(d.engine, d.input, d.inbound, u);
    var rest := d.input[Accepted(d.input, u)..];
    if got == [] || d.inbound.None? then Decrypt(e, rest, d.inbound, d.emitted, r, d.cancelled)
    else
      var next := AfterAction(d.inbound.value, if acts == [] then KeepReading else acts[0]);
      Decrypt(e, rest, next, d.emitted + [got], r, d.cancelled || next.None?)
  }

  /** The turn, from what `unwrap` answered. */
  lemma TurnFrom(d: Decrypt, tape: seq<UnwrapAnswer>, acts: seq<ReadAction>, u: UnwrapAnswer)
    requires u == Answered(d.engine, d.input, d.inbound, tape)
    ensures var (e, r, got) := UnwrapEngine(d.engine, d.input, d.inbound, u);
            var rest := d.input[Accepted(d.input, u)..];
            && (got == [] || d.inbound.None? ==>
                  DecryptTurn(d, tape, acts) == Decrypt(e, rest, d.inbound, d.emitted, r, d.cancelled))
            && (got != [] && d.inbound.Some? ==>
                  var next := AfterAction(d.inbound.value, if acts == [] then KeepReading else acts[0]);
                  DecryptTurn(d, tape, acts)
                  == Decrypt(e, rest, next, d.emitted + [got], r, d.cancelled || next.None?))
  {
    hide UnwrapEngine, Answered;
  }

  function Rest<T>(s: seq<T>): seq<T> {
    if s == [] then [] else s[1..]
  }

  function ActsLeft(d: Decrypt, t: Decrypt, acts: seq<ReadAction>): seq<ReadAction> {
    if |t.emitted| > |d.emitted| then Rest(acts) else acts
  }

  /** What was emitted and what is left of the record are the decrypted stream. */
  predicate PlaintextKept(d: Decrypt) {
    Concat(d.emitted) + d.engine.record == d.engine.plaintext
  }

  lemma TurnConserves(d: Decrypt, tape: seq<UnwrapAnswer>, acts: seq<ReadAction>)
    requires PlaintextKept(d)
    ensures PlaintextKept(DecryptTurn(d, tape, acts))
  {
    var u := Answered(d.engine, d.input, d.inbound, tape);
    UnwrapConserves(d.engine, d.input, d.inbound, u);
    var (e, r, got) := UnwrapEngine(d.engine, d.input, d.inbound, u);
    var more := Loaded(d.engine, d.input, d.inbound, u);
    Rebalance(d.emitted, d.engine.record, d.engine.plaintext, more, got, e.record);
  }

  /** Emitting `got` out of the record and what was decrypted meanwhile keeps the account balanced. */
  lemma Rebalance(emitted: seq<seq<Byte>>, record: seq<Byte>, plaintext: seq<Byte>,
                  more: seq<Byte>, got: seq<Byte>, left: seq<Byte>)
    requires Concat(emitted) + record == plaintext && record + more == got + left
    ensures Concat(emitted + [got]) + left == plaintext + more
    ensures got == [] ==> Concat(emitted) + left == plaintext + more
  {
    ConcatSnoc(emitted, got);
    assert (Concat(emitted) + record) + more == Concat(emitted) + (record + more);
    assert (Concat(emitted) + got) + left == Concat(emitted) + (got + left);
    assert got == [] ==> got + left == left;
  }

  lemma TurnFacts(d: Decrypt, tape: seq<UnwrapAnswer>, acts: seq<ReadAction>)
    ensures var t := DecryptTurn(d, tape, acts);
            && (t.last.DataReadMore? ==> t.engine.record != [] && |t.emitted| == |d.emitted| + 1 && d.inbound.Some?)
            && (t.last.DataRead? ==> t.engine.record == [])
            && (d.engine.record != [] && t.last.DataReadMore? ==> |t.engine.record| < |d.engine.record|)
            && (d.cancelled ==> t.cancelled)
            && (t.inbound.None? && d.inbound.Some? ==> t.cancelled)
            && (|t.emitted| > |d.emitted| && acts != [] ==> t.inbound == (match acts[0]
                  case KeepReading => d.inbound
                  case CancelReading => None
                  case SwitchBuffer(c) => Some(c)))
            && (|t.emitted| == |d.emitted| || acts == [] ==> t.inbound == d.inbound)
  {
    var u := Answered(d.engine, d.input, d.inbound, tape);
    UnwrapConserves(d.engine, d.input, d.inbound, u);
    if d.engine.record != [] {
      UnwrapShrinks(d.engine, d.input, d.inbound, u);
    }
  }

  /** One turn uses up what the BIO took, and feeds it nothing else. */
  lemma TurnFeeds(d: Decrypt, tape: seq<UnwrapAnswer>, acts: seq<ReadAction>)
    ensures var t := DecryptTurn(d, tape, acts); t.engine.fed + t.input == d.engine.fed + d.input
    ensures tape != [] && UnwrapAnswerOk(d.engine, d.input, d.inbound, tape[0]) && tape[0].accepted >= 0 ==>
              var t := DecryptTurn(d, tape, acts);
              t.input == d.input[tape[0].accepted..] && t.engine.fed == d.engine.fed + d.input[..tape[0].accepted]
  {
    hide UnwrapEngine;
    UnwrapFeeds(d.engine, d.input, d.inbound, Answered(d.engine, d.input, d.inbound, tape));
  }

  /** `do { ... } while (inbound_buffer && (result & kDataReadMore))`; `first` marks the first turn. */
  function DecryptLoop(d: Decrypt, tape: seq<UnwrapAnswer>, acts: seq<ReadAction>, first: bool): Decrypt
    requires first || d.engine.record != []
    decreases if first then 1 else 0, |d.engine.record|
  {
    var t := DecryptTurn(d, tape, acts);
    TurnFacts(d, tape, acts);
    if d.inbound.Some? && t.last.DataReadMore? then DecryptLoop(t, Rest(tape), ActsLeft(d, t, acts), false)
    else t
  }

  /**
   * The plaintext emitted so far is a prefix of the decrypted stream, with no gap and no repeat: what
   * has not been emitted is what is left of the current record.
   */
  lemma {:induction false} DecryptPrefix(d: Decrypt, tape: seq<UnwrapAnswer>, acts: seq<ReadAction>, first: bool)
    requires first || d.engine.record != []
    requires PlaintextKept(d)
    ensures var t := DecryptLoop(d, tape, acts, first); PlaintextKept(t) && Concat(t.emitted) <= t.engine.plaintext
    decreases if first then 1 else 0, |d.engine.record|
  {
    TurnFacts(d, tape, acts);
    TurnConserves(d, tape, acts);
    var t := DecryptTurn(d, tape, acts);
    if d.inbound.Some? && t.last.DataReadMore? {
      DecryptPrefix(t, Rest(tape), ActsLeft(d, t, acts), false);
    }
  }

  /** Over the whole loop every byte of the event is fed once, in order, up to what the BIO would not take. */
  lemma {:induction false} LoopFeeds(d: Decrypt, tape: seq<UnwrapAnswer>, acts: seq<ReadAction>, first: bool)
    requires first || d.engine.record != []
    ensures var t := DecryptLoop(d, tape, acts, first); t.engine.fed + t.input == d.engine.fed + d.input
    decreases if first then 1 else 0, |d.engine.record|
  {
    hide DecryptTurn, UnwrapAnswerOk;
    TurnFacts(d, tape, acts);
    TurnFeeds(d, tape, acts);
    var t := DecryptTurn(d, tape, acts);
    if d.inbound.Some? && t.last.DataReadMore? {
      LoopFeeds(t, Rest(tape), ActsLeft(d, t, acts), false);
    }
  }

  /** The loop never stops with "read more" outstanding, and a last "read" means a drained record. */
  lemma {:induction false} DecryptDrains(d: Decrypt, tape: seq<UnwrapAnswer>, acts: seq<ReadAction>, first: bool)
    requires first || d.engine.record != []
    ensures var t := DecryptLoop(d, tape, acts, first);
            && !t.last.DataReadMore?
            && (t.last.DataRead? ==> t.engine.record == [])
            && (d.inbound.Some? && !t.cancelled ==> t.inbound.Some?)
    decreases if first then 1 else 0, |d.engine.record|
  {
    TurnFacts(d, tape, acts);
    var t := DecryptTurn(d, tape, acts);
    if d.inbound.Some? && t.last.DataReadMore? {
      if t.inbound.None? {
        TurnFacts(t, Rest(tape), ActsLeft(d, t, acts));
      }
      DecryptDrains(t, Rest(tape), ActsLeft(d, t, acts), false);
      CancelSticks(t, Rest(tape), ActsLeft(d, t, acts));
    }
  }

  lemma {:induction false} CancelSticks(d: Decrypt, tape: seq<UnwrapAnswer>, acts: seq<ReadAction>)
    requires d.engine.record != []
    ensures d.cancelled ==> DecryptLoop(d, tape, acts, false).cancelled
    decreases |d.engine.record|
  {
    TurnFacts(d, tape, acts);
    var t := DecryptTurn(d, tape, acts);
    if d.inbound.Some? && t.last.DataReadMore? {
      CancelSticks(t, Rest(tape), ActsLeft(d, t, acts));
    }
  }

  /** How the next turn goes. */
  function TurnVerdict(d: Decrypt, tape: seq<UnwrapAnswer>): Verdict {
    VerdictOf(d.engine, d.input, d.inbound, Answered(d.engine, d.input, d.inbound, tape))
  }

  /**
   * What OpenSSL does in the whole loop: in every turn that has a buffer the BIO takes the input, the
   * handshake is or gets finished, and `SSL_read` does not fail.
   */
  predicate Cooperates(d: Decrypt, tape: seq<UnwrapAnswer>, acts: seq<ReadAction>, first: bool)
    requires first || d.engine.record != []
    decreases if first then 1 else 0, |d.engine.record|
  {
    var t := DecryptTurn(d, tape, acts);
    TurnFacts(d, tape, acts);
    && (d.inbound.Some? ==> TurnVerdict(d, tape).Decrypted?)
    && (d.inbound.Some? && t.last.DataReadMore? ==> Cooperates(t, Rest(tape), ActsLeft(d, t, acts), false))
  }

  /** A turn that decrypts either asks for another or has drained the record. */
  lemma DecryptedTurn(d: Decrypt, tape: seq<UnwrapAnswer>, acts: seq<ReadAction>)
    requires TurnVerdict(d, tape).Decrypted?
    ensures var t := DecryptTurn(d, tape, acts); t.last.DataReadMore? || t.engine.record == []
  {
    hide UnwrapEngine;
    UnwrapConserves(d.engine, d.input, d.inbound, Answered(d.engine, d.input, d.inbound, tape));
  }

  /**
   * Draining: if the BIO takes the input and `SSL_read` does not fail, the loop, started with a buffer,
   * ends with the current record fully drained unless the handler cancelled reading.
   */
  lemma {:induction false} LoopDrainsRecord(d: Decrypt, tape: seq<UnwrapAnswer>, acts: seq<ReadAction>, first: bool)
    requires first || d.engine.record != []
    requires d.inbound.Some? && Cooperates(d, tape, acts, first)
    ensures var t := DecryptLoop(d, tape, acts, first); t.engine.record == [] || t.cancelled
    decreases if first then 1 else 0, |d.engine.record|
  {
    TurnFacts(d, tape, acts);
    DecryptedTurn(d, tape, acts);
    var t := DecryptTurn(d, tape, acts);
    if t.last.DataReadMore? {
      if t.inbound.Some? {
        LoopDrainsRecord(t, Rest(tape), ActsLeft(d, t, acts), false);
      } else {
        CancelSticks(t, Rest(tape), ActsLeft(d, t, acts));
      }
    }
  }

  // ---- the objects ----

  /** The parent stream socket, as far as the TLS socket uses it. */
  class ParentSocket {
    var writes: seq<seq<Byte>>
    var refusals: seq<bool>
    var closes: nat

    constructor (answers: seq<bool>)
      ensures writes == [] && refusals == answers && closes == 0
    {
      writes, refusals, closes := [], answers, 0;
    }

    /** The bytes are captured now; a refusal calls the completion at once. */
    method Write(buffer: VectorBuffer) returns (refused: bool)
      requires buffer.Model().Ordered()
      modifies this
      ensures writes == old(writes) + [buffer.Model().Window()]
      ensures refused == (old(refusals) != [] && old(refusals)[0])
      ensures refusals == Rest(old(refusals)) && closes == old(closes)
    {
      var data := buffer.Data();
      writes := writes + [data];
      refused := false;
      if |refusals| > 0 {
        refused := refusals[0];
        refusals := refusals[1..];
      }
    }

    method Close()
      modifies this`closes
      ensures closes == old(closes) + 1
    {
      closes := closes + 1;
    }
  }

  class SslSocketImpl {
    var engine: OpenSslEngine
    const parent: ParentSocket
    var outbound: VectorBuffer?
    var inbound: VectorBuffer?
    var connectEvent: Option<nat>
    var handshaked: bool
    var closing: bool
    /** Connect callbacks called with success. */
    var fired: seq<nat>
    /** Windows of the SocketReadEvents emitted. */
    var emitted: seq<seq<Byte>>

    constructor (e: OpenSslEngine, p: ParentSocket)
      ensures engine == e && parent == p && outbound == null && inbound == null && connectEvent == None
      ensures !handshaked && !closing && fired == [] && emitted == []
    {
      engine, parent, outbound, inbound := e, p, null, null;
      connectEvent, handshaked, closing, fired, emitted := None, false, false, [], [];
    }

    ghost function Model(): Ssl
      reads this, engine, parent, outbound
    {
      Ssl(engine.Model(), if outbound == null then None else Some(outbound.Model()), inbound != null,
          connectEvent, handshaked, closing, parent.writes, fired, parent.closes, parent.refusals)
    }

    method CancelRead()
      modifies this`inbound
      ensures inbound == null
    {
      inbound := null;
    }

    method CloseImpl(fromParent: bool)
      modifies this`closing, this`inbound, parent`closes
      ensures Model() == AfterClose(old(Model()), fromParent)
      ensures old(closing) ==> inbound == old(inbound)
    {
      if closing {
        return;
      }
      closing := true;
      CancelRead();
      if !fromParent {
        parent.Close();
      }
    }

    /** The NeedWrap branch up to the parent write; `wrote` and `refused` say how that went. */
    method Flush(error: ErrorClass) returns (wrote: bool, refused: bool)
      modifies this`outbound, engine, parent, outbound
      ensures Model() == FlushRound(old(Model()), error)
      ensures wrote == (|parent.writes| > old(|parent.writes|))
      ensures wrote ==> refused == Refused(old(Model()))
      ensures outbound != null && (fresh(outbound) || outbound == old(outbound))
      ensures inbound == old(inbound)
    {
      hide Drain, Fresh;
      if outbound == null {
        outbound := new VectorBuffer(DEFAULT_BUFFER, DEFAULT_BUFFER);
      }
      outbound.Clear();
      DrainConserves(engine.Model(), outbound.Model(), 0, error);
      var r := engine.Wrap(null, Answer(0, WantRead, [], engine.initDone), outbound, error);
      var left := outbound.Remaining();
      wrote, refused := false, false;
      if left > 0 {
        refused := parent.Write(outbound);
        wrote := true;
      }
    }

    method FinishHandshake()
      modifies this`handshaked, this`connectEvent, this`fired
      ensures Model() == AfterFinished(old(Model()))
    {
      handshaked := true;
      if connectEvent.Some? {
        fired := fired + [connectEvent.value];
        connectEvent := None;
      }
    }

    method TlsProcess(error: ErrorClass)
      modifies this`outbound, this`inbound, this`handshaked, this`closing, this`connectEvent, this`fired
      modifies engine, parent, outbound
      ensures Model() == Pump(old(Model()), error)
      decreases |engine.bioOut|
    {
      hide Drain, FlushRound, NextOutbound, AfterClose, AfterFinished, Refused;
      var status := engine.GetHandshakeStatus();
      match status {
        case NeedWrap =>
          var wrote, refused := Flush(error);
          if wrote && refused {
            TlsProcess(error);
          }
        case Finished =>
          FinishHandshake();
        case ClosingStatus => CloseImpl(false);
        case _ =>
      }
    }

    method Disconnect(a: Answer, error: ErrorClass) returns (ok: bool)
      modifies this`outbound, this`inbound, this`handshaked, this`closing, this`connectEvent, this`fired
      modifies engine, parent, outbound
      ensures Model() == AfterDisconnect(old(Model()), a, error)
      ensures ok <==> a.rv >= 0
    {
      hide Pump, AfterShutdown;
      CancelRead();
      ok := engine.Shutdown(a);
      if ok {
        TlsProcess(error);
      }
    }

    /** The parent's connect has succeeded: a new engine begins its handshake. */
    method OnConnected(callback: Option<nat>, pair: bool, hello: Answer, error: ErrorClass)
      modifies this`engine, this`outbound, this`inbound, this`handshaked, this`closing, this`connectEvent, this`fired
      modifies parent, outbound
      ensures var begun := AfterBegin(NEW_ENGINE, pair, hello);
              Model() == Pump(old(Model()).(connectEvent := callback, engine := begun), error)
      ensures fresh(engine)
    {
      hide Pump, AfterBegin;
      connectEvent := callback;
      engine := new OpenSslEngine();
      engine.BeginHandshake(pair, hello);
      TlsProcess(error);
    }

    /** `write`: whatever `wrap` did, the window of the outbound buffer goes to the parent. */
    method Write(buffer: VectorBuffer, a: Answer, error: ErrorClass) returns (refused: bool)
      requires outbound != null && outbound != buffer && buffer.Model().Ordered() && WriteAnswer(engine.Model(), a)
      modifies engine, parent, outbound, buffer
      ensures (engine.Model(), outbound.Model())
           == WriteData(old(engine.Model()), old(outbound.Model()).Clear(), a, error)
      ensures parent.writes == old(parent.writes) + [outbound.Model().Window()]
      ensures refused == (old(parent.refusals) != [] && old(parent.refusals)[0])
      ensures buffer.position == old(buffer.position) + (if a.rv > 0 then a.rv else 0)
    {
      outbound.Clear();
      WriteConservesIff(engine.Model(), outbound.Model(), a, error);
      var r := engine.Wrap(buffer, a, outbound, error);
      refused := parent.Write(outbound);
    }

    ghost function ReadCapacity(): Option<nat>
      reads this, inbound
    {
      if inbound == null then None else Some(|inbound.buf|)
    }

    ghost function Decrypting(input: VectorBuffer, last: DataResult, cancelled: bool): Decrypt
      reads this, engine, inbound, input
      requires input.Model().Ordered()
    {
      Decrypt(engine.Model(), input.Model().Window(), ReadCapacity(), emitted, last, cancelled)
    }

    /** The handler of one SocketReadEvent, as far as it concerns reading. */
    method HandleRead(act: ReadAction) returns (cancelled: bool)
      requires inbound != null
      modifies this`inbound
      ensures (if inbound == null then None else Some(|inbound.buf|)) == AfterAction(old(|inbound.buf|), act)
      ensures inbound != null ==> fresh(inbound) || inbound == old(inbound)
      ensures cancelled <==> inbound == null
    {
      match act {
        case KeepReading =>
        case CancelReading => CancelRead();
        case SwitchBuffer(c) => inbound := new VectorBuffer(c, c);
      }
      cancelled := inbound == null;
    }

    /** The `unwrap` of a turn, into the cleared read buffer if there is one. */
    method UnwrapInto(input: VectorBuffer, tape: seq<UnwrapAnswer>) returns (result: DataResult)
      requires input.Model().Ordered() && input != inbound
      modifies engine, input, inbound
      ensures var window := old(input.Model().Window());
              var u := Answered(old(engine.Model()), window, old(ReadCapacity()), tape);
              var (e, r, got) := UnwrapEngine(old(engine.Model()), window, old(ReadCapacity()), u);
              && engine.Model() == e && result == r && ReadCapacity() == old(ReadCapacity())
              && input.Model().Ordered() && input.Model().Window() == window[Accepted(window, u)..]
              && (inbound != null && (r.DataRead? || r.DataReadMore?) ==>
                    inbound.Model().Ordered() && inbound.Model().Window() == got)
    {
      hide UnwrapEngine, UnwrapAnswerOk;
      var buffer := inbound;
      if buffer != null {
        buffer.Clear();
      }
      var window := input.Data();
      var u := Answered(engine.Model(), window, if buffer == null then None else Some(|buffer.buf|), tape);
      result := engine.Unwrap(input, buffer, u);
      assert input.Model().Window() == window[Accepted(window, u)..];
    }

    /** One turn of the decrypt loop; `tape` and `acts` are OpenSSL's and the handler's choices. */
    method ReadTurn(input: VectorBuffer, tape: seq<UnwrapAnswer>, acts: seq<ReadAction>,
                    ghost last: DataResult, wasCancelled: bool)
      returns (result: DataResult, cancelled: bool)
      requires input.Model().Ordered() && input != inbound
      modifies this`inbound, this`emitted, engine, input, inbound
      ensures input.Model().Ordered() && input != inbound
      ensures Decrypting(input, result, cancelled)
           == DecryptTurn(old(Decrypting(input, last, wasCancelled)), tape, acts)
      ensures inbound != null ==> fresh(inbound) || inbound == old(inbound)
    {
      hide UnwrapEngine, Loaded, Reads, FeedFails, DecryptTurn, AfterAction, UnwrapAnswerOk;
      ghost var d := Decrypting(input, last, wasCancelled);
      ghost var u := Answered(d.engine, d.input, d.inbound, tape);
      var buffer := inbound;
      UnwrapConserves(d.engine, d.input, d.inbound, u);
      TurnFrom(d, tape, acts, u);
      result := UnwrapInto(input, tape);
      cancelled := wasCancelled;
      if (result == DataRead || result == DataReadMore) && buffer != null {
        var remaining := buffer.Remaining();
        if remaining > 0 {
          var text := buffer.Data();
          emitted := emitted + [text];
          var stopped := HandleRead(if acts == [] then KeepReading else acts[0]);
          cancelled := cancelled || stopped;
        }
      }
    }

    /** The parent's read event without an error, before its final `tlsProcess`. */
    method OnParentRead(input: VectorBuffer, tape: seq<UnwrapAnswer>, acts: seq<ReadAction>)
      returns (result: DataResult, cancelled: bool)
      requires input.Model().Ordered() && input != inbound
      modifies this`inbound, this`emitted, engine, input, inbound
      ensures input.Model().Ordered()
      ensures Decrypting(input, result, cancelled)
           == DecryptLoop(old(Decrypting(input, DataOk, false)), tape, acts, true)
    {
      ghost var d0 := Decrypting(input, DataOk, false);
      ghost var d := d0;
      var answers, actions := tape, acts;
      var first, more := true, true;
      result, cancelled := DataOk, false;
      while more
        invariant input.Model().Ordered() && input != inbound
        invariant inbound != null ==> fresh(inbound) || inbound == old(inbound)
        invariant d == Decrypting(input, result, cancelled)
        invariant more && !first ==> d.engine.record != []
        invariant DecryptLoop(d0, tape, acts, true) == if more then DecryptLoop(d, answers, actions, first) else d
        decreases more, first, |engine.record|
      {
        ghost var before := d;
        var buffer := inbound;
        var count := |emitted|;
        result, cancelled := ReadTurn(input, answers, actions, result, cancelled);
        d := Decrypting(input, result, cancelled);
        TurnFacts(before, answers, actions);
        more := buffer != null && result == DataReadMore;
        if |emitted| > count {
          actions := Rest(actions);
        }
        answers := Rest(answers);
        first := false;
      }
    }
  }
}
