/** The growable byte buffer with a position and a limit (unio/src/buffer.cc). */
module Buffers {
  import opened Prelude

  /** The value of a buffer: storage, growth bound, and the two cursors. */
  datatype Buf = Buf(bytes: seq<Byte>, expandable: nat, position: nat, limit: nat) {

    function Capacity(): nat {
      |bytes|
    }

    /** `remaining()` is a size_t subtraction, so it is meaningful only here. */
    predicate Ordered() {
      position <= limit <= |bytes|
    }

    function Remaining(): nat
      requires Ordered()
    {
      limit - position
    }

    /** The readable bytes: `remaining()` of them starting at `data()`. */
    function Window(): seq<Byte>
      requires Ordered()
    {
      bytes[position..limit]
    }

    function Clear(): Buf {
      this.(position := 0, limit := |bytes|)
    }

    function Flip(): Buf {
      this.(limit := position, position := 0)
    }

    /** What a foreign read does: `data` is stored from the position onwards. */
    function Store(data: seq<Byte>): Buf
      requires position + |data| <= |bytes|
    {
      this.(bytes := bytes[..position] + data + bytes[position + |data|..])
    }

    function Expand(size: nat): Buf {
      var newSize := if size <= expandable then size else expandable;
      if newSize <= |bytes| || expandable <= |bytes| then this
      else this.(bytes := bytes + Zeros(newSize - |bytes|))
    }
  }

  function Zeros(n: nat): (z: seq<Byte>)
    ensures |z| == n && forall i :: 0 <= i < n ==> z[i] == 0
  {
    seq(n, _ => 0)
  }

  function Fresh(initial: nat, expandable: nat): Buf {
    Buf(Zeros(initial), expandable, 0, 0)
  }

  /** Clearing, storing `data`, moving the position past it and flipping makes `data` the window. */
  lemma StoreThenFlip(b: Buf, data: seq<Byte>)
    requires |data| <= b.Capacity()
    ensures var r := b.Clear().Store(data).(position := |data|).Flip();
            r.Ordered() && r.Window() == data && r.Capacity() == b.Capacity()
            && r.bytes[|data|..] == b.bytes[|data|..] && r.expandable == b.expandable
  {
  }

  /** Growing never shrinks a buffer, never passes the bound by growth, and keeps the stored bytes. */
  lemma ExpandKeeps(b: Buf, size: nat)
    ensures var r := b.Expand(size);
            && r.Capacity() == Max(b.Capacity(), Min(size, b.expandable))
            && r.bytes[..b.Capacity()] == b.bytes
            && r.position == b.position && r.limit == b.limit
  {
  }

  class VectorBuffer {
    var buf: seq<Byte>
    var expandableSize: nat
    var position: nat
    var limit: nat

    function Model(): Buf
      reads this
    {
      Buf(buf, expandableSize, position, limit)
    }

    constructor (initialSize: nat, expandable: nat)
      ensures Model() == Fresh(initialSize, expandable)
    {
      buf := Zeros(initialSize);
      expandableSize, position, limit := expandable, 0, 0;
    }

    method Clear()
      modifies this
      ensures Model() == old(Model()).Clear()
    {
      position := 0;
      limit := |buf|;
    }

    method Flip()
      modifies this
      ensures Model() == old(Model()).Flip()
    {
      limit := position;
      position := 0;
    }

    method SetPosition(size: nat)
      modifies this`position
      ensures position == size
    {
      position := size;
    }

    method SetLimit(size: nat)
      modifies this`limit
      ensures limit == size
    {
      limit := size;
    }

    /** A foreign call filling the buffer from `data()`. */
    method Store(data: seq<Byte>)
      requires position + |data| <= |buf|
      modifies this`buf
      ensures Model() == old(Model()).Store(data)
    {
      buf := buf[..position] + data + buf[position + |data|..];
    }

    method Remaining() returns (n: nat)
      requires Model().Ordered()
      ensures n == |Model().Window()|
    {
      n := limit - position;
    }

    method Data() returns (data: seq<Byte>)
      requires Model().Ordered()
      ensures data == Model().Window()
    {
      data := buf[position..limit];
    }

    method Expand(size: nat)
      modifies this`buf
      ensures Model() == old(Model()).Expand(size)
      ensures |buf| == Max(old(|buf|), Min(size, expandableSize))
    {
      var newSize := if size <= expandableSize then size else expandableSize;
      if newSize <= |buf| || expandableSize <= |buf| {
        return;
      }
      buf := buf + Zeros(newSize - |buf|);
    }
  }
}
