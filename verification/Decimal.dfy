/** Decimal printing and reading. */
module Decimal {
  import opened Bytes

  const ZERO: Byte := 48

  predicate IsDigit(b: Byte) { 48 <= b <= 57 }

  function Digit(d: nat): (b: Byte)
    requires d < 10
    ensures IsDigit(b)
  {
    ZERO + d
  }

  predicate AllDigits(ds: seq<Byte>) {
    forall i :: 0 <= i < |ds| ==> IsDigit(ds[i])
  }

  /** The digits of a number, and none for 0. */
  function SomeDigits(n: nat): (ds: seq<Byte>)
    ensures AllDigits(ds)
    ensures n > 0 ==> ds != [] && ds[0] != ZERO
  {
    if n == 0 then [] else SomeDigits(n / 10) + [Digit(n % 10)]
  }

  /** A number in decimal, without leading zeros. */
  function Digits(n: nat): (ds: seq<Byte>)
    ensures AllDigits(ds) && ds != []
    ensures ds[0] == ZERO <==> n == 0
  {
    if n == 0 then [ZERO] else SomeDigits(n)
  }

  /** The last digits of a number, as many as asked, with leading zeros. */
  function Padded(n: nat, width: nat): (ds: seq<Byte>)
    ensures |ds| == width && AllDigits(ds)
  {
    if width == 0 then [] else Padded(n / 10, width - 1) + [Digit(n % 10)]
  }

  function Value(ds: seq<Byte>): nat
    requires AllDigits(ds)
  {
    if ds == [] then 0 else 10 * Value(ds[..|ds| - 1]) + (ds[|ds| - 1] - ZERO)
  }

  function Pow10(k: nat): nat {
    if k == 0 then 1 else 10 * Pow10(k - 1)
  }

  lemma ValueSnoc(ds: seq<Byte>, d: nat)
    requires AllDigits(ds) && d < 10
    ensures Value(ds + [Digit(d)]) == 10 * Value(ds) + d
  {
    assert (ds + [Digit(d)])[..|ds|] == ds;
  }

  lemma {:induction false} ValueOfSomeDigits(n: nat)
    ensures Value(SomeDigits(n)) == n
  {
    if n > 0 {
      ValueOfSomeDigits(n / 10);
      ValueSnoc(SomeDigits(n / 10), n % 10);
    }
  }

  /** Reading a printed number gives it back. */
  lemma ValueOfDigits(n: nat)
    ensures Value(Digits(n)) == n
  {
    if n == 0 {
      assert [ZERO][..0] == [];
    } else {
      ValueOfSomeDigits(n);
    }
  }

  lemma {:induction false} ValueOfPadded(n: nat, width: nat)
    requires n < Pow10(width)
    ensures Value(Padded(n, width)) == n
    decreases width
  {
    if width > 0 {
      ValueOfPadded(n / 10, width - 1);
      ValueSnoc(Padded(n / 10, width - 1), n % 10);
    }
  }

  lemma TenthBelow(n: nat, k: nat)
    requires 0 < n < Pow10(k)
    ensures k > 0 && n / 10 < Pow10(k - 1)
  {
  }

  lemma {:induction false} DigitCount(n: nat, k: nat)
    requires n < Pow10(k)
    ensures |SomeDigits(n)| <= k
    decreases k
  {
    if n > 0 {
      TenthBelow(n, k);
      DigitCount(n / 10, k - 1);
    }
  }

  /** A uint32_t has at most ten digits. */
  lemma U32Digits(n: nat)
    requires n < 0x1_0000_0000
    ensures |Digits(n)| <= 10
  {
    assert Pow10(10) == 10_000_000_000 by {
      assert Pow10(5) == 100_000;
      assert Pow10(8) == 100_000_000;
    }
    DigitCount(n, 10);
  }

  lemma DigitTaken(v: nat, tail: seq<Byte>)
    requires v > 0
    ensures SomeDigits(v) + tail == SomeDigits(v / 10) + ([Digit(v % 10)] + tail)
    ensures |SomeDigits(v)| == |SomeDigits(v / 10)| + 1
  {
  }

  lemma NoDigits()
    ensures SomeDigits(0) == []
  {
  }

  /** Writes the digits of val so that they end at buf[end], and returns where they start. */
  method FastU32ToStr(val: nat, buf: array<Byte>, end: nat) returns (start: nat)
    requires val < 0x1_0000_0000 && 10 <= end <= buf.Length
    modifies buf
    ensures start <= end && buf[start..end] == Digits(val)
    ensures forall i :: 0 <= i < buf.Length && !(start <= i < end) ==> buf[i] == old(buf[i])
  {
    hide SomeDigits;
    U32Digits(val);
    NoDigits();
    start := end;
    if val == 0 {
      start := start - 1;
      buf[start] := ZERO;
      return;
    }
    var v := val;
    assert SomeDigits(val) == SomeDigits(v) + buf[start..end];
    while v > 0
      invariant start <= end && |SomeDigits(v)| <= start
      invariant SomeDigits(val) == SomeDigits(v) + buf[start..end]
      invariant forall i :: 0 <= i < buf.Length && !(start <= i < end) ==> buf[i] == old(buf[i])
      decreases v
    {
      ghost var tail := buf[start..end];
      start := start - 1;
      buf[start] := Digit(v % 10);
      assert buf[start..end] == [Digit(v % 10)] + tail;
      DigitTaken(v, tail);
      v := v / 10;
    }
    assert SomeDigits(val) == buf[start..end];
  }

  /** The path of generation i of a log file: rotated files have a number after a dot. */
  function RotatedName(base: seq<Byte>, i: nat): seq<Byte> {
    if i == 0 then base else base + [46] + Digits(i)
  }

  /** The path of a rotated file: the base path, a dot, and its number in decimal. */
  lemma RotatedPath(base: seq<Byte>, i: nat)
    ensures i == 0 ==> RotatedName(base, i) == base
    ensures i > 0 ==>
              var name, n := RotatedName(base, i), |base|;
              && |name| > n + 1 && name[..n] == base && name[n] == 46 && name[n + 1] != 48
              && AllDigits(name[n + 1..]) && Value(name[n + 1..]) == i
  {
    if i > 0 {
      assert RotatedName(base, i)[|base| + 1..] == Digits(i);
      ValueOfDigits(i);
    }
  }

  /** Different generations have different paths. */
  lemma NamesDistinct(base: seq<Byte>, i: nat, j: nat)
    requires RotatedName(base, i) == RotatedName(base, j)
    ensures i == j
  {
    var n := |base| + 1;
    if i > 0 && j > 0 {
      assert RotatedName(base, i)[n..] == Digits(i) && RotatedName(base, j)[n..] == Digits(j);
      ValueOfDigits(i);
      ValueOfDigits(j);
    }
  }
}
