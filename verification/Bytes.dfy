/** Bytes, and sequences of bytes, as the copies, files and buffers of the logger see them. */
module Bytes {

  type Byte = b: int | 0 <= b < 256

  /** n zero bytes: what a file is extended with. */
  function Zeros(n: nat): (z: seq<Byte>)
    ensures |z| == n
    ensures forall i :: 0 <= i < n ==> z[i] == 0
  {
    seq(n, i => 0)
  }

  function Concat(parts: seq<seq<Byte>>): seq<Byte> {
    if parts == [] then [] else Concat(parts[..|parts| - 1]) + parts[|parts| - 1]
  }

  lemma ConcatSnoc(parts: seq<seq<Byte>>, last: seq<Byte>)
    ensures Concat(parts + [last]) == Concat(parts) + last
  {
    assert (parts + [last])[..|parts|] == parts;
  }

  lemma {:induction false} ConcatAppend(xs: seq<seq<Byte>>, ys: seq<seq<Byte>>)
    ensures Concat(xs + ys) == Concat(xs) + Concat(ys)
  {
    if ys == [] {
      assert xs + ys == xs;
    } else {
      var front := ys[..|ys| - 1];
      assert (xs + ys)[..|xs + ys| - 1] == xs + front;
      ConcatAppend(xs, front);
    }
  }
}
