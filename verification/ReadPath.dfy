/**
 * The inbound side of a TCP socket: libuv asks for memory (`allocCallback`), fills a prefix of it
 * and reports how much (`readCallback`); a handler then sees the bytes and may do what it likes
 * with the buffer (unio/src/net/tcp_socket.cc).
 */
module ReadPath {
  import opened Prelude
  import opened Buffers

  const UV_EOF: int := -4095

  /** The buffer after `allocCallback`; its window is the memory offered to libuv. */
  function Alloc(b: Buf, suggested: nat): (a: Buf)
    ensures a.Ordered()
  {
    var c := b.Clear();
    if c.Remaining() < suggested then
      var wanted := c.Capacity() + (suggested - c.Remaining());
      c.Expand(if c.expandable >= wanted then wanted else c.expandable)
    else c
  }

  /** The memory offered is the buffer as it was before growing; growth reaches min(bound, suggestion). */
  lemma AllocOffersOldCapacity(b: Buf, suggested: nat)
    ensures Alloc(b, suggested).Remaining() == b.Capacity()
    ensures Alloc(b, suggested).Capacity() == Max(b.Capacity(), Min(b.expandable, suggested))
    ensures Alloc(b, suggested).Remaining() <= Alloc(b, suggested).Capacity()
    ensures Alloc(b, suggested).expandable == b.expandable
  {
    ExpandKeeps(b.Clear(), Min(b.expandable, suggested));
  }

  /** What a SocketReadEvent handler leaves behind. */
  datatype Handler = Reposition(position: nat, limit: nat) | Replace(next: Buf) | Stop

  datatype Outcome = Data(bytes: seq<Byte>, handler: Handler) | Eof | Failed

  datatype Event =
    | Read(buffer: Buf)          // sets the buffer and queues the start on the loop
    | StartReading               // the queued `uv_read_start`
    | CancelRead
    | Cycle(suggested: nat, outcome: Outcome)

  /**
   * `delivered` is what libuv wrote and announced; `windows` is what the handlers could read;
   * `starts` counts the queued starts that have not run yet.
   */
  datatype Reader = Reader(
    buffer: Option<Buf>, active: bool, starts: nat, windows: seq<seq<Byte>>, delivered: seq<seq<Byte>>)

  /** libuv's promises: it calls back while reading is active, and never announces more than it was offered. */
  predicate Enabled(r: Reader, e: Event) {
    match e
    case Read(_) => true
    case StartReading => r.starts > 0
    case CancelRead => true
    case Cycle(s, o) =>
      r.active && r.buffer.Some? && (o.Data? ==> |o.bytes| <= Alloc(r.buffer.value, s).Remaining())
  }

  /** The buffer after `limit(position() + nread)`, libuv having stored `bytes` at the offered base. */
  function Filled(a: Buf, bytes: seq<Byte>): Buf
    requires a.position + |bytes| <= a.Capacity()
  {
    var f := a.Store(bytes);
    f.(limit := f.position + |bytes|)
  }

  /** `clear()` after the emission is of the buffer read into, whatever the handler put in its place. */
  function AfterHandler(r: Reader, f: Buf, h: Handler): Reader {
    match h
    case Reposition(p, l) => r.(buffer := Some(f.(position := p, limit := l).Clear()))
    case Replace(next) => r.(buffer := Some(next), starts := r.starts + 1)
    case Stop => r.(buffer := None, active := false)
  }

  function Step(r: Reader, e: Event): Reader
    requires Enabled(r, e)
  {
    match e
    case Read(b) => r.(buffer := Some(b), starts := r.starts + 1)
    case StartReading => r.(active := true, starts := r.starts - 1)
    case CancelRead => r.(buffer := None, active := false)
    case Cycle(s, o) =>
      var a := Alloc(r.buffer.value, s);
      match o
      case Data(bytes, h) =>
        var f := Filled(a, bytes);
        AfterHandler(r, f, h).(windows := r.windows + [f.Window()], delivered := r.delivered + [bytes])
      case _ => r.(buffer := Some(a))
  }

  predicate Valid(r: Reader, es: seq<Event>)
    decreases es
  {
    es == [] || (Enabled(r, es[0]) && Valid(Step(r, es[0]), es[1..]))
  }

  function Run(r: Reader, es: seq<Event>): Reader
    requires Valid(r, es)
    decreases es
  {
    if es == [] then r else Run(Step(r, es[0]), es[1..])
  }

  /**
   * Read-stream fidelity: whatever the growth, the buffer switches and the repositioning in between,
   * the bytes readable at each emission are the bytes libuv delivered, in order.
   */
  lemma {:induction false} ReadFidelity(r: Reader, es: seq<Event>)
    requires Valid(r, es) && r.windows == r.delivered
    ensures Run(r, es).windows == Run(r, es).delivered
    ensures Concat(Run(r, es).windows) == Concat(Run(r, es).delivered)
    decreases es
  {
    if es != [] {
      var e := es[0];
      if e.Cycle? && e.outcome.Data? {
        var a := Alloc(r.buffer.value, e.suggested);
        assert a.position == 0;
        assert Filled(a, e.outcome.bytes).Window() == e.outcome.bytes;
      }
      ReadFidelity(Step(r, e), es[1..]);
    }
  }

  /**
   * What a cycle leaves: a buffer the handler put in place is there as it was given, one it left in place
   * is cleared and no larger or smaller than it was offered, and nothing else stops or starts reading.
   */
  lemma CycleLeaves(r: Reader, s: nat, o: Outcome)
    requires Enabled(r, Cycle(s, o))
    ensures var v := Step(r, Cycle(s, o));
            if !o.Data? then v == r.(buffer := Some(Alloc(r.buffer.value, s)))
            else
              match o.handler
              case Reposition(_, _) =>
                && v.buffer.Some? && v.active && v.starts == r.starts
                && v.buffer.value.position == 0 && v.buffer.value.limit == v.buffer.value.Capacity()
                && v.buffer.value.Capacity() == Alloc(r.buffer.value, s).Capacity()
              case Replace(next) => v.buffer == Some(next) && v.active && v.starts == r.starts + 1
              case Stop => v.buffer.None? && !v.active && v.starts == r.starts
  {
  }

  predicate StartsReading(e: Event) {
    e.Read? || (e.Cycle? && e.outcome.Data? && e.outcome.handler.Replace?)
  }

  /** Starts queued by a run less those that have run in it. */
  function NetStarts(es: seq<Event>): int {
    if es == [] then 0
    else One(StartsReading(es[0])) - One(es[0].StartReading?) + NetStarts(es[1..])
  }

  /** Whether reading is on after a run: the last start has come after the last cancellation. */
  predicate LastStarts(es: seq<Event>, before: bool) {
    if es == [] then before
    else LastStarts(es[1..], es[0].StartReading? || (before && !CancelsReading(es[0])))
  }

  /** Reading is on, and starts are queued, exactly as the calls of the run say. */
  lemma {:induction false} ReadingOfRun(r: Reader, es: seq<Event>)
    requires Valid(r, es)
    ensures Run(r, es).starts == r.starts + NetStarts(es)
    ensures Run(r, es).active <==> LastStarts(es, r.active)
    decreases es
  {
    if es != [] {
      ReadingOfRun(Step(r, es[0]), es[1..]);
    }
  }

  /** libuv would call `allocCallback` and find no buffer. */
  predicate NullAlloc(r: Reader) {
    r.active && r.buffer.None?
  }

  /** No allocation finds a null buffer, now or once the queued starts have run. */
  predicate BufferReady(r: Reader) {
    !NullAlloc(r) && (r.starts > 0 ==> !NullAlloc(Step(r, StartReading)))
  }

  predicate CancelsReading(e: Event) {
    e.CancelRead? || (e.Cycle? && e.outcome.Data? && e.outcome.handler.Stop?)
  }

  /**
   * Every event keeps the buffer ready, cancelling excepted; cancelling keeps it ready if and only if
   * no start is still queued, because the start that comes afterwards finds no buffer.
   */
  lemma ReadyStep(r: Reader, e: Event)
    requires BufferReady(r) && Enabled(r, e)
    ensures BufferReady(Step(r, e)) <==> !CancelsReading(e) || r.starts == 0
  {
  }

  /** No cancellation of the run happens while a start is queued. */
  predicate CancelsWhenStarted(r: Reader, es: seq<Event>)
    requires Valid(r, es)
    decreases es
  {
    es == [] || ((CancelsReading(es[0]) ==> r.starts == 0) && CancelsWhenStarted(Step(r, es[0]), es[1..]))
  }

  /** Under that discipline libuv always finds a buffer to offer. */
  lemma {:induction false} NoNullAlloc(r: Reader, es: seq<Event>)
    requires BufferReady(r) && Valid(r, es) && CancelsWhenStarted(r, es)
    ensures BufferReady(Run(r, es))
    decreases es
  {
    if es != [] {
      ReadyStep(r, es[0]);
      NoNullAlloc(Step(r, es[0]), es[1..]);
    }
  }

  const NEW_READER: Reader := Reader(None, false, 0, [], [])

  /** Without it: reading is set up, cancelled at once, and started by the task still queued. */
  lemma NullAllocReached(b: Buf)
    ensures var es := [Read(b), CancelRead, StartReading];
            && Valid(NEW_READER, es) && NullAlloc(Run(NEW_READER, es))
            && !CancelsWhenStarted(NEW_READER, es)
  {
    var es := [Read(b), CancelRead, StartReading];
    var r1 := Step(NEW_READER, es[0]);
    var r2 := Step(r1, es[1]);
    assert es[1..] == [CancelRead, StartReading] && es[1..][1..] == [StartReading] && es[1..][1..][1..] == [];
    assert Valid(Step(r2, StartReading), []) && Valid(r2, [StartReading]);
    assert Run(r2, [StartReading]) == Step(r2, StartReading);
    assert Valid(r1, [CancelRead, StartReading]) && Run(r1, [CancelRead, StartReading]) == Run(r2, [StartReading]);
  }

  function Suggestions(es: seq<Event>): seq<nat> {
    if es == [] then []
    else (if es[0].Cycle? then [es[0].suggested] else []) + Suggestions(es[1..])
  }

  function MaxOf(ss: seq<nat>): nat {
    if ss == [] then 0 else Max(ss[0], MaxOf(ss[1..]))
  }

  /** A run that stays on one buffer: no `read`, no `cancelRead`, handlers only reposition. */
  predicate SameBuffer(es: seq<Event>) {
    forall i :: 0 <= i < |es| ==>
      es[i].Cycle? && (es[i].outcome.Data? ==> es[i].outcome.handler.Reposition?)
  }

  /**
   * Closed form of growth over a whole run on one buffer of initial size i and bound E: the capacity
   * is max(i, min(E, largest suggestion)), however many bytes arrive in between.
   */
  lemma {:induction false} GrowthClosedForm(r: Reader, es: seq<Event>)
    requires r.buffer.Some? && Valid(r, es) && SameBuffer(es)
    ensures var last := Run(r, es).buffer;
            && last.Some?
            && last.value.expandable == r.buffer.value.expandable
            && last.value.Capacity()
               == Max(r.buffer.value.Capacity(), Min(r.buffer.value.expandable, MaxOf(Suggestions(es))))
    decreases es
  {
    if es != [] {
      AllocOffersOldCapacity(r.buffer.value, es[0].suggested);
      assert SameBuffer(es[1..]);
      GrowthClosedForm(Step(r, es[0]), es[1..]);
    }
  }

  /** The n-th length offered to libuv is the capacity all earlier suggestions had produced. */
  lemma {:induction false} OfferedLength(r: Reader, es: seq<Event>, n: nat)
    requires r.buffer.Some? && Valid(r, es) && SameBuffer(es) && n < |es|
    ensures Valid(r, es[..n]) && Run(r, es[..n]).buffer.Some?
    ensures Alloc(Run(r, es[..n]).buffer.value, es[n].suggested).Remaining()
         == Max(r.buffer.value.Capacity(), Min(r.buffer.value.expandable, MaxOf(Suggestions(es[..n]))))
  {
    PrefixValid(r, es, n);
    GrowthClosedForm(r, es[..n]);
    AllocOffersOldCapacity(Run(r, es[..n]).buffer.value, es[n].suggested);
  }

  lemma {:induction false} PrefixValid(r: Reader, es: seq<Event>, n: nat)
    requires Valid(r, es) && n <= |es|
    ensures Valid(r, es[..n])
    decreases es
  {
    if n > 0 {
      PrefixValid(Step(r, es[0]), es[1..], n - 1);
      assert es[..n][1..] == es[1..][..n - 1];
    }
  }

  /** The effect of a handler when the buffers are objects. */
  datatype Effect = Cursor(position: nat, limit: nat) | Switch(next: VectorBuffer) | Cancel

  class TcpReader {
    var readBuffer: VectorBuffer?
    var windows: seq<seq<Byte>>
    var ends: nat
    var errors: seq<int>

    constructor ()
      ensures readBuffer == null && windows == [] && ends == 0 && errors == []
    {
      readBuffer, windows, ends, errors := null, [], 0, [];
    }

    method Read(buffer: VectorBuffer)
      modifies this`readBuffer
      ensures readBuffer == buffer
    {
      readBuffer := buffer;
    }

    method CancelRead()
      modifies this`readBuffer
      ensures readBuffer == null
    {
      readBuffer := null;
    }

    method AllocCallback(suggested: nat) returns (base: nat, len: nat)
      requires readBuffer != null
      modifies readBuffer
      ensures readBuffer.Model() == Alloc(old(readBuffer.Model()), suggested)
      ensures base == readBuffer.position
      ensures len == |readBuffer.Model().Window()| == old(|readBuffer.buf|)
    {
      var buffer := readBuffer;
      buffer.Clear();
      var remaining := buffer.Remaining();
      if remaining < suggested {
        var wanted := |buffer.buf| + (suggested - remaining);
        var bound := buffer.expandableSize;
        buffer.Expand(if bound >= wanted then wanted else bound);
      }
      base := buffer.position;
      len := buffer.Remaining();
    }

    /** libuv has already stored the `nread` bytes at the offered base when this runs. */
    method ReadCallback(nread: int, effect: Effect)
      requires readBuffer != null
      requires nread >= 0 ==> readBuffer.position + nread <= |readBuffer.buf|
      modifies this, readBuffer
      ensures nread == UV_EOF ==>
                ends == old(ends) + 1 && windows == old(windows) && errors == old(errors)
                && readBuffer == old(readBuffer) && readBuffer.Model() == old(readBuffer.Model())
      ensures nread < 0 && nread != UV_EOF ==>
                errors == old(errors) + [nread] && windows == old(windows) && ends == old(ends)
                && readBuffer == old(readBuffer) && readBuffer.Model() == old(readBuffer.Model())
      ensures nread >= 0 ==>
                && windows == old(windows)
                     + [old(readBuffer.buf)[old(readBuffer.position)..old(readBuffer.position) + nread]]
                && ends == old(ends) && errors == old(errors)
                && old(readBuffer).Model() == old(readBuffer.Model()).Clear()
                && readBuffer == (match effect
                                  case Cursor(_, _) => old(readBuffer)
                                  case Switch(next) => next
                                  case Cancel => null)
    {
      var buffer := readBuffer;
      if nread == UV_EOF {
        ends := ends + 1;
        return;
      } else if nread < 0 {
        errors := errors + [nread];
        return;
      }
      buffer.SetLimit(buffer.position + nread);
      var window := buffer.Data();
      windows := windows + [window];
      match effect {
        case Cursor(p, l) =>
          buffer.SetPosition(p);
          buffer.SetLimit(l);
        case Switch(next) => Read(next);
        case Cancel => CancelRead();
      }
      buffer.Clear();
    }
  }
}
