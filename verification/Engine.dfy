/**
 * The TLS engine (unio/src/net/openssl_provider.cc, `OpenSSLEngineImpl`) over OpenSSL as an oracle:
 * every foreign call answers with its return value, the error class `SSL_get_error` would give, the
 * bytes it appended to the outbound BIO, and whether the handshake is finished afterwards.
 *
 * Premises on OpenSSL: a positive `SSL_write` leaves bytes in the BIO; `SSL_read` never returns zero
 * while the current record has bytes, and a successful one takes from the current record, else from
 * one new record, as much as fits.
 */
module Engine {
  import opened Prelude
  import opened Buffers

  datatype ErrorClass =
    | ErrorNone | ErrorSsl | WantRead | WantWrite | WantX509Lookup
    | ZeroReturn | Syscall | WantConnect | WantAccept

  datatype Answer = Answer(rv: int, error: ErrorClass, out: seq<Byte>, done: bool)

  /** `kStateClosed` .. `kStateError`. */
  datatype TlsState = StateClosed | StateHandshaking | StateHandshaked | StateClosing | StateError

  datatype HandshakeStatus =
    | NotStarted | NeedWrap | NeedUnwrap | Finished | ClosingStatus | Failed

  /** `kDataOk`, `kDataClosed`, `kDataRead` and `kDataRead | kDataReadMore`. */
  datatype DataResult = DataOk | DataClosed | DataRead | DataReadMore

  /**
   * `bioOut` is what the engine has produced and nobody has read yet; `record` what is left of the
   * current decrypted record. `produced` and `plaintext` are their whole histories, `fed` that of the
   * ciphertext the inbound BIO has taken.
   */
  datatype Tls = Tls(
    state: TlsState,
    errorSet: bool,
    initDone: bool,
    bioOut: seq<Byte>,
    record: seq<Byte>,
    produced: seq<Byte>,
    plaintext: seq<Byte>,
    fed: seq<Byte>
  )

  const NEW_ENGINE: Tls := Tls(StateClosed, false, false, [], [], [], [], [])

  predicate Fatal(c: ErrorClass) {
    !(c.WantRead? || c.WantWrite? || c.WantX509Lookup?)
  }

  /** The foreign call's own effects, before the engine looks at the result. */
  function Foreign(e: Tls, a: Answer): Tls {
    e.(bioOut := e.bioOut + a.out, produced := e.produced + a.out, initDone := a.done)
  }

  /** `handleError`'s effect; its returned flag is `Errs`. */
  function AfterError(e: Tls, rv: int, c: ErrorClass): Tls {
    if rv <= 0 && Fatal(c) then e.(state := StateError, errorSet := true) else e
  }

  predicate Errs(rv: int) {
    rv < 0
  }

  function Status(e: Tls): HandshakeStatus {
    if e.state.StateHandshaked? then Finished
    else if e.bioOut != [] then NeedWrap
    else if e.state.StateClosing? then ClosingStatus
    else NeedUnwrap
  }

  function AfterHandshake(e: Tls, a: Answer): Tls {
    var f := AfterError(Foreign(e, a), a.rv, a.error);
    if !Errs(a.rv) && a.rv == 1 then f.(state := StateHandshaked) else f
  }

  /** `beginHandshake`; `pair` says whether the BIO pair could be made. */
  function AfterBegin(e: Tls, pair: bool, a: Answer): Tls {
    if pair then AfterHandshake(e, a) else e.(state := StateError, errorSet := true)
  }

  /** `shutdown` is reported successful exactly when `SSL_shutdown` did not return a negative value. */
  function AfterShutdown(e: Tls, a: Answer): Tls {
    var f := AfterError(Foreign(e, a), a.rv, a.error);
    if Errs(a.rv) then f else f.(state := StateClosing)
  }

  predicate WriteAnswer(e: Tls, a: Answer) {
    a.rv > 0 ==> e.bioOut + a.out != []
  }

  /** The `BIO_read` half of `wrap`, `rv` being whatever was in that variable before. */
  function Drain(e: Tls, output: Buf, rv: nat, error: ErrorClass): (r: (Tls, Buf))
    requires output.Ordered()
  {
    if e.bioOut == [] then (e, output.(position := output.position + rv).Flip())
    else
      var n := Min(output.Remaining(), |e.bioOut|);
      var f := AfterError(e.(bioOut := e.bioOut[n..]), n, error);
      (f, output.Store(e.bioOut[..n]).(position := output.position + n).Flip())
  }

  /**
   * `wrap` with an output buffer. Without input it only drains; with input, `a` answers `SSL_write`,
   * and a negative result leaves the output as it was, unflipped.
   */
  function WrapEngine(e: Tls, input: bool, a: Answer, output: Buf, error: ErrorClass): (r: (Tls, Buf, DataResult))
    requires output.Ordered()
  {
    if !input then
      var (f, o) := Drain(e, output, 0, error);
      (f, o, DataOk)
    else
      var f := AfterError(Foreign(e, a), a.rv, a.error);
      if Errs(a.rv) then (f, output, DataClosed)
      else
        var (g, o) := Drain(f, output, a.rv, error);
        (g, o, DataOk)
  }

  /**
   * Draining into a cleared buffer moves the front of the BIO into the window, as much as fits; the
   * window is the bytes taken and the rest stays queued.
   */
  lemma DrainConserves(e: Tls, output: Buf, rv: nat, error: ErrorClass)
    requires output == output.Clear() && (e.bioOut == [] ==> rv == 0)
    ensures var (f, o) := Drain(e, output, rv, error);
            && o.Ordered()
            && o.Window() + f.bioOut == e.bioOut
            && |o.Window()| == Min(output.Capacity(), |e.bioOut|)
            && f.produced == e.produced
            && o.Capacity() == output.Capacity()
            && f.record == e.record && f.plaintext == e.plaintext && f.initDone == e.initDone && f.fed == e.fed
            && (f.state == e.state || f.state.StateError?)
            && (output.Capacity() > 0 ==> f.state == e.state)
  {
    if e.bioOut != [] {
      var n := Min(output.Remaining(), |e.bioOut|);
      StoreThenFlip(output, e.bioOut[..n]);
      assert e.bioOut[..n] + e.bioOut[n..] == e.bioOut;
    }
  }

  /** Answers to one `unwrap`: `BIO_write`, `SSL_do_handshake`, then `SSL_read`. */
  datatype ReadAnswer = Data(next: seq<Byte>) | NoData(rv: int)

  datatype UnwrapAnswer = UnwrapAnswer(
    accepted: int, acceptError: ErrorClass, handshake: Answer, read: ReadAnswer, readError: ErrorClass,
    out: seq<Byte>, done: bool)

  /** What OpenSSL can answer: see the module's premises. */
  predicate UnwrapAnswerOk(e: Tls, input: seq<Byte>, capacity: Option<nat>, u: UnwrapAnswer) {
    && u.accepted <= |input|
    && (match u.read
        case Data(next) =>
          capacity.Some? && capacity.value > 0 && (e.record != [] ==> next == []) && e.record + next != []
        case NoData(rv) => rv <= 0 && (rv == 0 ==> e.record == []))
  }

  /** How much of the input one `unwrap` consumes. */
  function Accepted(input: seq<Byte>, u: UnwrapAnswer): (n: nat)
    requires u.accepted <= |input|
    ensures n <= |input|
  {
    if input == [] || u.accepted < 0 then 0 else u.accepted
  }

  /** The bytes `BIO_write` took. */
  function Taken(input: seq<Byte>, u: UnwrapAnswer): seq<Byte> {
    if 0 <= u.accepted <= |input| then input[..u.accepted] else []
  }

  function AfterFeed(e: Tls, input: seq<Byte>, u: UnwrapAnswer): Tls {
    if input == [] then e else AfterError(e.(fed := e.fed + Taken(input, u)), u.accepted, u.acceptError)
  }

  predicate FeedFails(input: seq<Byte>, u: UnwrapAnswer) {
    input != [] && Errs(u.accepted)
  }

  /** `SSL_read` and what follows: the engine, the result, and the plaintext handed out. */
  function ReadRecord(e: Tls, capacity: nat, u: UnwrapAnswer): (Tls, DataResult, seq<Byte>) {
    var f := Foreign(e, Answer(0, u.readError, u.out, u.done));
    match u.read
    case NoData(rv) =>
      var g := AfterError(f, rv, u.readError);
      (g, if Errs(rv) then DataClosed else if g.record != [] then DataReadMore else DataRead, [])
    case Data(next) =>
      var all := e.record + next;
      var n := Min(capacity, |all|);
      (f.(record := all[n..], plaintext := f.plaintext + next),
       if all[n..] != [] then DataReadMore else DataRead, all[..n])
  }

  /** `unwrap`; `capacity` is that of the cleared output buffer, if there is one. */
  function UnwrapEngine(e: Tls, input: seq<Byte>, capacity: Option<nat>, u: UnwrapAnswer)
    : (Tls, DataResult, seq<Byte>)
  {
    var f := AfterFeed(e, input, u);
    if FeedFails(input, u) then (f, DataClosed, [])
    else
      var g := if f.initDone then f else AfterHandshake(f, u.handshake);
      if !f.initDone && u.handshake.rv != 1 then (g, DataOk, [])
      else if capacity.None? then (g, DataOk, [])
      else ReadRecord(g, capacity.value, u)
  }

  /** Whether `unwrap` gets as far as `SSL_read`. */
  predicate Reads(e: Tls, input: seq<Byte>, capacity: Option<nat>, u: UnwrapAnswer) {
    && !FeedFails(input, u) && capacity.Some?
    && (AfterFeed(e, input, u).initDone || u.handshake.rv == 1)
  }

  /** How one `unwrap` went: what stopped it, or that it decrypted. */
  datatype Verdict = BioRefused | StillShaking | NoBuffer | ReadRefused | Decrypted

  function VerdictOf(e: Tls, input: seq<Byte>, capacity: Option<nat>, u: UnwrapAnswer): Verdict {
    if FeedFails(input, u) then BioRefused
    else if !AfterFeed(e, input, u).initDone && u.handshake.rv != 1 then StillShaking
    else if capacity.None? then NoBuffer
    else if u.read.NoData? && Errs(u.read.rv) then ReadRefused
    else Decrypted
  }

  /** The record this `unwrap` decrypts, if any. */
  function Loaded(e: Tls, input: seq<Byte>, capacity: Option<nat>, u: UnwrapAnswer): seq<Byte> {
    if Reads(e, input, capacity, u) && u.read.Data? then u.read.next else []
  }

  /** The bytes this `unwrap` makes the engine produce. */
  function Reply(e: Tls, input: seq<Byte>, capacity: Option<nat>, u: UnwrapAnswer): seq<Byte> {
    if FeedFails(input, u) then []
    else (if AfterFeed(e, input, u).initDone then [] else u.handshake.out)
         + (if Reads(e, input, capacity, u) then u.out else [])
  }

  lemma ReadConserves(e: Tls, capacity: nat, u: UnwrapAnswer)
    requires u.read.Data? ==> capacity > 0 && e.record + u.read.next != []
    requires u.read.NoData? ==> u.read.rv <= 0 && (u.read.rv == 0 ==> e.record == [])
    ensures var (f, r, got) := ReadRecord(e, capacity, u);
            var more := if u.read.Data? then u.read.next else [];
            && f.plaintext == e.plaintext + more && e.record + more == got + f.record
            && (r.DataReadMore? ==> got != [] && f.record != [])
            && (r.DataRead? ==> f.record == [])
            && !r.DataOk?
            && |got| <= capacity && (u.read.Data? ==> |got| == Min(capacity, |e.record + more|))
            && (got != [] ==> r.DataRead? || r.DataReadMore?)
            && (r.DataClosed? <==> u.read.NoData? && u.read.rv < 0)
  {
    if u.read.Data? {
      var all := e.record + u.read.next;
      assert all == all[..Min(capacity, |all|)] + all[Min(capacity, |all|)..];
    } else {
      assert e.plaintext + [] == e.plaintext && e.record + [] == [] + e.record;
    }
  }

  /**
   * One `unwrap` hands out exactly the next plaintext bytes: nothing is skipped, nothing repeated, and
   * only what is still in the current record is kept back. "Read more" means just that, and "read"
   * that the record is drained; "closed" means that the BIO or `SSL_read` failed.
   */
  lemma UnwrapConserves(e: Tls, input: seq<Byte>, capacity: Option<nat>, u: UnwrapAnswer)
    requires UnwrapAnswerOk(e, input, capacity, u)
    ensures var (f, r, got) := UnwrapEngine(e, input, capacity, u);
            var more := Loaded(e, input, capacity, u);
            && f.plaintext == e.plaintext + more && e.record + more == got + f.record
            && (r.DataReadMore? ==> got != [] && f.record != [] && capacity.Some?)
            && (r.DataRead? ==> f.record == [])
            && (got != [] ==> capacity.Some? && |got| <= capacity.value && (r.DataRead? || r.DataReadMore?))
            && (Reads(e, input, capacity, u) && u.read.Data? ==>
                  |got| == Min(capacity.value, |e.record + more|))
            && (r.DataOk? <==> !FeedFails(input, u) && !Reads(e, input, capacity, u))
            && (r.DataClosed? <==> FeedFails(input, u)
                                   || (Reads(e, input, capacity, u) && u.read.NoData? && u.read.rv < 0))
  {
    hide ReadRecord;
    var f := AfterFeed(e, input, u);
    var g := if f.initDone then f else AfterHandshake(f, u.handshake);
    assert g.record == e.record && g.plaintext == e.plaintext;
    if Reads(e, input, capacity, u) {
      ReadConserves(g, capacity.value, u);
    } else {
      assert e.plaintext + [] == e.plaintext && e.record + [] == [] + e.record;
    }
  }

  /** While the current record lasts, every successful `unwrap` takes something off it. */
  lemma UnwrapShrinks(e: Tls, input: seq<Byte>, capacity: Option<nat>, u: UnwrapAnswer)
    requires UnwrapAnswerOk(e, input, capacity, u) && e.record != []
    ensures var (f, r, got) := UnwrapEngine(e, input, capacity, u);
            r.DataReadMore? ==> |f.record| < |e.record| && got + f.record == e.record
  {
  }

  /**
   * The handshaked state is entered by `unwrap` exactly when it performed a handshake step that
   * `SSL_do_handshake` answered with one, and no fatal error of the read that follows overrides it.
   */
  lemma UnwrapReachesHandshaked(e: Tls, input: seq<Byte>, capacity: Option<nat>, u: UnwrapAnswer)
    requires !e.state.StateHandshaked?
    ensures UnwrapEngine(e, input, capacity, u).0.state.StateHandshaked?
      <==> && !FeedFails(input, u) && !e.initDone && u.handshake.rv == 1
           && !(Reads(e, input, capacity, u) && u.read.NoData? && u.read.rv <= 0 && Fatal(u.readError))
  {
    assert AfterFeed(e, input, u).initDone == e.initDone;
  }

  /**
   * Whatever has happened to the engine, the status never says "failed"; in the error state, entered
   * anywhere, it asks to wrap or to unwrap.
   */
  lemma StatusNeverFails(e: Tls)
    ensures !Status(e).Failed? && !Status(e).NotStarted?
    ensures e.state.StateError? ==> Status(e).NeedWrap? || Status(e).NeedUnwrap?
  {
  }

  /** A handshake that ends in an error when it begins: the error is stored, and the status hides it. */
  lemma ErrorIsNotReported(e: Tls, pair: bool, a: Answer)
    requires a.rv <= 0 && Fatal(a.error)
    ensures var f := AfterBegin(e, pair, a);
            && f.state.StateError? && f.errorSet
            && Status(f) == (if f.bioOut != [] then NeedWrap else NeedUnwrap)
  {
  }

  /** The same for the handshake step of `unwrap`, whose own result says that all is well. */
  lemma UnwrapErrorIsNotReported(e: Tls, input: seq<Byte>, capacity: Option<nat>, u: UnwrapAnswer)
    requires !FeedFails(input, u) && !e.initDone && u.handshake.rv <= 0 && Fatal(u.handshake.error)
    ensures var (f, r, got) := UnwrapEngine(e, input, capacity, u);
            && f.state.StateError? && f.errorSet && r.DataOk? && got == []
            && (Status(f).NeedWrap? || Status(f).NeedUnwrap?)
  {
  }

  /** The classes that end the engine, by name: all but the three that ask to come again. */
  lemma FatalClasses(c: ErrorClass)
    ensures Fatal(c) <==> c in {ErrorNone, ErrorSsl, ZeroReturn, Syscall, WantConnect, WantAccept}
  {
  }

  /**
   * An unwrap leaves the error stored exactly when it was, or the BIO, the handshake step or `SSL_read`
   * answered without success and with a fatal class; and the first two stop it before it reads.
   */
  lemma UnwrapStoresErrors(e: Tls, input: seq<Byte>, capacity: Option<nat>, u: UnwrapAnswer)
    requires u.accepted <= |input|
    ensures var f := UnwrapEngine(e, input, capacity, u).0;
            f.errorSet <==>
              || e.errorSet
              || (input != [] && u.accepted <= 0 && Fatal(u.acceptError))
              || (!FeedFails(input, u) && !e.initDone && u.handshake.rv <= 0 && Fatal(u.handshake.error))
              || (Reads(e, input, capacity, u) && u.read.NoData? && u.read.rv <= 0 && Fatal(u.readError))
    ensures FeedFails(input, u) && Fatal(u.acceptError) ==>
              UnwrapEngine(e, input, capacity, u).0.state.StateError?
  {
    assert AfterFeed(e, input, u).initDone == e.initDone;
  }

  /** The engine takes the handshake for finished exactly when OpenSSL said so in its last answer. */
  lemma DoneAsAnswered(e: Tls, input: seq<Byte>, capacity: Option<nat>, u: UnwrapAnswer, a: Answer)
    requires u.accepted <= |input|
    ensures UnwrapEngine(e, input, capacity, u).0.initDone
         == (if FeedFails(input, u) then e.initDone
             else if Reads(e, input, capacity, u) then u.done
             else if e.initDone then true
             else u.handshake.done)
    ensures AfterHandshake(e, a).initDone == a.done && AfterShutdown(e, a).initDone == a.done
    ensures AfterBegin(e, true, a).initDone == a.done
  {
    assert AfterFeed(e, input, u).initDone == e.initDone;
  }

  /** What `wrap` reports, and that it leaves the handshake as `SSL_write` says or alone. */
  lemma WrapReports(e: Tls, input: bool, a: Answer, output: Buf, error: ErrorClass)
    requires output == output.Clear()
    ensures var (f, o, r) := WrapEngine(e, input, a, output, error);
            && r == (if input && a.rv < 0 then DataClosed else DataOk)
            && f.initDone == (if input then a.done else e.initDone)
            && (input && a.rv <= 0 && Fatal(a.error) ==> f.state.StateError? && f.errorSet)
  {
  }

  /**
   * What a shutdown leaves: its alert pending; a negative answer of a fatal class the error state and the
   * error stored, of another class the state it found; any other answer the closing state.
   */
  lemma ShutdownOutcome(e: Tls, a: Answer)
    ensures var f := AfterShutdown(e, a);
            && f.bioOut == e.bioOut + a.out && f.produced == e.produced + a.out
            && f.record == e.record && f.plaintext == e.plaintext
            && (a.rv < 0 && Fatal(a.error) ==> f.state.StateError? && f.errorSet)
            && (a.rv < 0 && !Fatal(a.error) ==> f.state == e.state && f.errorSet == e.errorSet)
            && (a.rv >= 0 ==> f.state.StateClosing?)
            && (a.rv > 0 ==> f.errorSet == e.errorSet)
  {
  }

  /** Nothing leaves the outbound queue through `unwrap`; it grows by what the engine produces. */
  lemma UnwrapOutbound(e: Tls, input: seq<Byte>, capacity: Option<nat>, u: UnwrapAnswer)
    ensures var f := UnwrapEngine(e, input, capacity, u).0;
            && f.bioOut == e.bioOut + Reply(e, input, capacity, u)
            && f.produced == e.produced + Reply(e, input, capacity, u)
  {
    var f := AfterFeed(e, input, u);
    var a := if f.initDone then [] else u.handshake.out;
    var b := if Reads(e, input, capacity, u) then u.out else [];
    AppendTwice(e.bioOut, a, b);
    AppendTwice(e.produced, a, b);
  }

  /**
   * One `unwrap` feeds the BIO the front of its input, as much as `BIO_write` said, and uses that much of
   * it up: what has been fed, then what is left, is what had been fed, then the input.
   */
  lemma UnwrapFeeds(e: Tls, input: seq<Byte>, capacity: Option<nat>, u: UnwrapAnswer)
    requires u.accepted <= |input|
    ensures var n := if input != [] && u.accepted > 0 then u.accepted else 0;
            && Accepted(input, u) == n
            && UnwrapEngine(e, input, capacity, u).0.fed == e.fed + input[..n]
            && UnwrapEngine(e, input, capacity, u).0.fed + input[n..] == e.fed + input
  {
    var n := if input != [] && u.accepted > 0 then u.accepted else 0;
    assert e.fed + input[..0] == e.fed;
    assert (e.fed + input[..n]) + input[n..] == e.fed + input;
  }

  lemma AppendTwice(q: seq<Byte>, a: seq<Byte>, b: seq<Byte>)
    ensures q + (a + b) == (q + a) + b
    ensures q + [] == q
  {
  }

  /** The engine object. `bioOut`, `record` and the histories stand for the state inside OpenSSL. */
  class OpenSslEngine {
    var state: TlsState
    var errorSet: bool
    var initDone: bool
    var bioOut: seq<Byte>
    var record: seq<Byte>
    var produced: seq<Byte>
    var plaintext: seq<Byte>
    var fed: seq<Byte>

    function Model(): Tls
      reads this
    {
      Tls(state, errorSet, initDone, bioOut, record, produced, plaintext, fed)
    }

    constructor ()
      ensures Model() == NEW_ENGINE
    {
      state, errorSet, initDone := StateClosed, false, false;
      bioOut, record, produced, plaintext, fed := [], [], [], [], [];
    }

    /** A foreign call appending to the BIO. */
    method Append(out: seq<Byte>, done: bool)
      modifies this
      ensures Model() == Foreign(old(Model()), Answer(0, WantRead, out, done))
    {
      bioOut := bioOut + out;
      produced := produced + out;
      initDone := done;
    }

    method HandleError(rv: int, c: ErrorClass) returns (failed: bool)
      modifies this`state, this`errorSet
      ensures Model() == AfterError(old(Model()), rv, c)
      ensures failed <==> rv < 0
      ensures rv <= 0 && c in {ErrorNone, ErrorSsl, ZeroReturn, Syscall, WantConnect, WantAccept} ==>
                state == StateError && errorSet
    {
      if rv > 0 {
        return false;
      }
      match c {
        case WantRead =>
        case WantWrite =>
        case WantX509Lookup =>
        case _ =>
          state := StateError;
          errorSet := true;
      }
      return rv < 0;
    }

    method GetHandshakeStatus() returns (s: HandshakeStatus)
      ensures s == Status(Model())
    {
      if state == StateHandshaked {
        return Finished;
      }
      if |bioOut| > 0 {
        return NeedWrap;
      }
      if state == StateClosing {
        return ClosingStatus;
      }
      return NeedUnwrap;
    }

    method DoHandshake(a: Answer) returns (rv: int)
      modifies this
      ensures Model() == AfterHandshake(old(Model()), a)
      ensures rv == a.rv
    {
      Append(a.out, a.done);
      rv := a.rv;
      var failed := HandleError(rv, a.error);
      if failed {
        return;
      }
      if rv == 1 {
        state := StateHandshaked;
      }
    }

    method BeginHandshake(pair: bool, a: Answer)
      modifies this
      ensures Model() == AfterBegin(old(Model()), pair, a)
    {
      if !pair {
        state := StateError;
        errorSet := true;
        return;
      }
      var rv := DoHandshake(a);
    }

    method Shutdown(a: Answer) returns (ok: bool)
      modifies this
      ensures Model() == AfterShutdown(old(Model()), a)
      ensures ok <==> a.rv >= 0
    {
      Append(a.out, a.done);
      var failed := HandleError(a.rv, a.error);
      if failed {
        return false;
      }
      state := StateClosing;
      return true;
    }

    /** The output half of `wrap`; `rv0` is the variable `rv` as the input half left it. */
    method ReadBio(rv0: nat, output: VectorBuffer, error: ErrorClass)
      requires output.Model().Ordered()
      modifies this, output
      ensures (Model(), output.Model()) == Drain(old(Model()), old(output.Model()), rv0, error)
    {
      var rv := rv0;
      var pending := |bioOut|;
      if pending > 0 {
        var room := output.Remaining();
        rv := if room <= pending then room else pending;
        output.Store(bioOut[..rv]);
        bioOut := bioOut[rv..];
        var failed := HandleError(rv, error);
      }
      output.SetPosition(output.position + rv);
      output.Flip();
    }

    method Wrap(input: VectorBuffer?, a: Answer, output: VectorBuffer, error: ErrorClass) returns (r: DataResult)
      requires output.Model().Ordered() && input != output
      modifies this, output, if input == null then {} else {input}
      ensures (Model(), output.Model(), r) == WrapEngine(old(Model()), input != null, a, old(output.Model()), error)
      ensures input != null ==>
                input.Model() == old(input.Model()).(position := old(input.position) + (if a.rv > 0 then a.rv else 0))
    {
      var rv: int := 0;
      if input != null {
        rv := a.rv;
        Append(a.out, a.done);
        var failed := HandleError(rv, a.error);
        if failed {
          return DataClosed;
        }
        input.SetPosition(input.position + rv);
      }
      ReadBio(rv, output, error);
      return DataOk;
    }

    /** `BIO_write` of the input and the handshake step; `more` says whether `unwrap` goes on to read. */
    method Feed(input: VectorBuffer, u: UnwrapAnswer) returns (r: DataResult, more: bool)
      requires input.Model().Ordered() && u.accepted <= |input.Model().Window()|
      modifies this, input
      ensures var window := old(input.Model()).Window();
              var f := AfterFeed(old(Model()), window, u);
              && Model() == (if FeedFails(window, u) || f.initDone then f else AfterHandshake(f, u.handshake))
              && (more <==> !FeedFails(window, u) && (f.initDone || u.handshake.rv == 1))
              && r == (if FeedFails(window, u) then DataClosed else DataOk)
              && input.Model() == old(input.Model()).(position := old(input.position) + Accepted(window, u))
              && input.position - old(input.position) == (if window != [] && u.accepted > 0 then u.accepted else 0)
    {
      if input.limit - input.position > 0 {
        var window := input.Data();
        if u.accepted >= 0 {
          fed := fed + window[..u.accepted];
        }
        var failed := HandleError(u.accepted, u.acceptError);
        if failed {
          return DataClosed, false;
        }
        input.SetPosition(input.position + u.accepted);
      }
      if !initDone {
        var rv := DoHandshake(u.handshake);
        if rv != 1 {
          return DataOk, false;
        }
      }
      return DataOk, true;
    }

    /** `SSL_read` into a cleared buffer and `SSL_pending`. */
    method Read(output: VectorBuffer, u: UnwrapAnswer) returns (r: DataResult)
      requires output.Model() == output.Model().Clear()
      requires u.read.NoData? ==> u.read.rv <= 0
      modifies this, output
      ensures var (f, result, got) := ReadRecord(old(Model()), old(|output.buf|), u);
              && Model() == f && r == result && |output.buf| == old(|output.buf|)
              && (r.DataRead? || r.DataReadMore? ==> output.Model().Ordered() && output.Model().Window() == got)
    {
      Append(u.out, u.done);
      match u.read {
        case NoData(rv) =>
          var failed := HandleError(rv, u.readError);
          if failed {
            return DataClosed;
          }
          output.SetPosition(output.position + rv);
        case Data(next) =>
          var all := record + next;
          plaintext := plaintext + next;
          var rv: nat := if |output.buf| <= |all| then |output.buf| else |all|;
          output.Store(all[..rv]);
          record := all[rv..];
          output.SetPosition(output.position + rv);
      }
      output.Flip();
      return if |record| > 0 then DataReadMore else DataRead;
    }

    method Unwrap(input: VectorBuffer, output: VectorBuffer?, u: UnwrapAnswer) returns (r: DataResult)
      requires input.Model().Ordered() && input != output
      requires output != null ==> output.Model() == output.Model().Clear()
      requires UnwrapAnswerOk(Model(), input.Model().Window(), if output == null then None else Some(|output.buf|), u)
      modifies this, input, if output == null then {} else {output}
      ensures var capacity := if output == null then None else Some(old(|output.buf|));
              var window := old(input.Model()).Window();
              var (f, result, got) := UnwrapEngine(old(Model()), window, capacity, u);
              && Model() == f && r == result
              && input.Model() == old(input.Model()).(position := old(input.position) + Accepted(window, u))
              && input.position - old(input.position) == (if window != [] && u.accepted > 0 then u.accepted else 0)
              && (output != null ==>
                    && |output.buf| == old(|output.buf|)
                    && (r.DataRead? || r.DataReadMore? ==> output.Model().Ordered() && output.Model().Window() == got))
    {
      var more;
      r, more := Feed(input, u);
      if more && output != null {
        r := Read(output, u);
      }
    }
  }
}
