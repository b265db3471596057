/** Small vocabulary shared by the model's modules. */
module Prelude {

  datatype Option<+T> = None | Some(value: T)

  /** One octet of a buffer or of a byte queue. */
  newtype Byte = x: int | 0 <= x < 256

  function Min(a: nat, b: nat): nat {
    if a <= b then a else b
  }

  function Max(a: nat, b: nat): nat {
    if a <= b then b else a
  }

  function One(b: bool): nat {
    if b then 1 else 0
  }

  /** The list a table holds for a key, an absent entry counting as an empty one. */
  function Lookup<T>(table: map<nat, seq<T>>, key: nat): seq<T> {
    if key in table then table[key] else []
  }

  function Repeat<T>(x: T, n: nat): seq<T>
    decreases n
  {
    if n == 0 then [] else [x] + Repeat(x, n - 1)
  }

  /** Concatenation of a sequence of chunks. */
  function Concat<T>(chunks: seq<seq<T>>): seq<T> {
    if chunks == [] then [] else chunks[0] + Concat(chunks[1..])
  }

  lemma {:induction false} ConcatSnoc<T>(chunks: seq<seq<T>>, last: seq<T>)
    ensures Concat(chunks + [last]) == Concat(chunks) + last
  {
    if chunks == [] {
      assert Concat([last]) == last + Concat<T>([]);
    } else {
      ConcatSnoc(chunks[1..], last);
      assert (chunks + [last])[1..] == chunks[1..] + [last];
    }
  }

  lemma Associative<T>(a: seq<T>, b: seq<T>, c: seq<T>)
    ensures (a + b) + c == a + (b + c)
  {
  }
}
