/** Ring arithmetic: the index mask, the power-of-two size, and 64-bit addition. */
module RingIndex {

  const WORD: nat := 0x1_0000_0000_0000_0000
  const INVALID_POS: nat := WORD - 1

  /** Addition of two uint64_t values, with wrap-around. */
  function Add64(a: nat, b: nat): (r: nat)
    requires a < WORD && b < WORD
    ensures r < WORD
    ensures r == (a + b) % 0x1_0000_0000_0000_0000
  {
    if a + b < WORD then a + b else a + b - WORD
  }

  /** The & operator on natural numbers, bit by bit. */
  function BitAnd(a: nat, b: nat): (r: nat)
    ensures r <= a && r <= b
    decreases a
  {
    if a == 0 || b == 0 then 0
    else 2 * BitAnd(a / 2, b / 2) + (if a % 2 == 1 && b % 2 == 1 then 1 else 0)
  }

  function Pow2(k: nat): (r: nat)
    ensures r >= 1
  {
    if k == 0 then 1 else 2 * Pow2(k - 1)
  }

  /** The compile-time test the queue puts on SIZE. */
  predicate AcceptedSize(size: nat) {
    size >= 16 && BitAnd(size, size - 1) == 0
  }

  lemma {:induction false} AndSelf(a: nat)
    ensures BitAnd(a, a) == a
  {
    if a > 0 { AndSelf(a / 2); }
  }

  lemma {:induction false} Pow2Accepted(k: nat)
    ensures BitAnd(Pow2(k), Pow2(k) - 1) == 0
  {
    if k > 0 {
      Pow2Accepted(k - 1);
      assert Pow2(k) / 2 == Pow2(k - 1) && Pow2(k) % 2 == 0;
      assert (Pow2(k) - 1) / 2 == Pow2(k - 1) - 1;
    }
  }

  lemma {:induction false} AcceptedIsPow2(n: nat) returns (k: nat)
    requires n >= 1 && BitAnd(n, n - 1) == 0
    ensures n == Pow2(k)
  {
    if n % 2 == 1 {
      AndSelf(n / 2);
      assert (n - 1) / 2 == n / 2;
      k := 0;
    } else {
      assert (n - 1) / 2 == n / 2 - 1;
      k := AcceptedIsPow2(n / 2);
      k := k + 1;
    }
  }

  /** The test accepts exactly the powers of two from 16 up. */
  lemma {:induction false} AcceptedExactlyPowersOfTwo(size: nat)
    ensures AcceptedSize(size) <==> size >= 16 && exists k: nat :: size == Pow2(k)
  {
    if AcceptedSize(size) {
      var k := AcceptedIsPow2(size);
    }
    if k: nat :| size == Pow2(k) {
      Pow2Accepted(k);
    }
  }

  lemma GapAtLeastOne(x: nat, y: nat, n: nat)
    requires x < y
    ensures x * n + n <= y * n
  {
    assert y * n == x * n + (y - x) * n;
    assert (y - x - 1) * n >= 0;
    assert (y - x) * n == (y - x - 1) * n + n;
  }

  lemma EuclidUnique(n: nat, q: nat, r: nat, q': nat, r': nat)
    requires r < n && r' < n && q * n + r == q' * n + r'
    ensures q == q' && r == r'
  {
    if q < q' {
      GapAtLeastOne(q, q', n);
    } else if q' < q {
      GapAtLeastOne(q', q, n);
    }
  }

  lemma DivMod(h: nat, n: nat) returns (q: nat, r: nat)
    requires n > 0
    ensures q == h / n && r == h % n && h == q * n + r && r < n
  {
    q, r := h / n, h % n;
  }

  lemma ModUnique(h: nat, q: nat, n: nat, r: nat)
    requires n > 0 && r < n && h == q * n + r
    ensures h % n == r
  {
    var q', r' := DivMod(h, n);
    EuclidUnique(n, q, r, q', r');
  }

  lemma ModDouble(h: nat, p: nat)
    requires p > 0
    ensures h % (2 * p) == 2 * ((h / 2) % p) + h % 2
  {
    var q, r := DivMod(h / 2, p);
    var n := 2 * p;
    assert q * n == 2 * (q * p);
    ModUnique(h, q, n, 2 * r + h % 2);
  }

  lemma MaskUp(h: nat, p: nat)
    requires h > 0 && p > 0 && BitAnd(h / 2, p - 1) == (h / 2) % p
    ensures BitAnd(h, 2 * p - 1) == h % (2 * p)
  {
    assert (2 * p - 1) / 2 == p - 1 && (2 * p - 1) % 2 == 1;
    ModDouble(h, p);
  }

  lemma {:induction false} MaskIsMod(h: nat, k: nat)
    ensures BitAnd(h, Pow2(k) - 1) == h % Pow2(k)
    decreases k
  {
    if k == 0 {
      ModUnique(h, h, 1, 0);
    } else if h == 0 {
      ModUnique(0, 0, Pow2(k), 0);
    } else {
      MaskIsMod(h / 2, k - 1);
      MaskUp(h, Pow2(k - 1));
    }
  }

  /** INDEX_MASK selects the position modulo SIZE, for every size the queue accepts. */
  lemma IndexIsMod(h: nat, size: nat)
    requires AcceptedSize(size)
    ensures BitAnd(h, size - 1) == h % size < size
  {
    var k := AcceptedIsPow2(size);
    MaskIsMod(h, k);
  }

  lemma ModShift(p: nat, n: nat)
    requires n > 0
    ensures (p + n) % n == p % n
  {
    var q, r := DivMod(p, n);
    assert (q + 1) * n == q * n + n;
    ModUnique(p + n, q + 1, n, r);
  }

  lemma ModGap(p: nat, q: nat, n: nat)
    requires p < q < p + n
    ensures p % n != q % n
  {
    var a, r := DivMod(p, n);
    var b, r' := DivMod(q, n);
    if r == r' {
      if a < b {
        GapAtLeastOne(a, b, n);
      } else if b < a {
        GapAtLeastOne(b, a, n);
      }
    }
  }

  lemma MultipleGap(x: nat, y: nat, n: nat)
    requires n > 0 && x % n == 0 && y % n == 0 && x < y
    ensures x + n <= y
  {
    if y < x + n {
      ModGap(x, y, n);
    }
  }

  /** SIZE consecutive positions use distinct slots, and position p + SIZE reuses the slot of p. */
  lemma RingDistinct(p: nat, q: nat, size: nat)
    requires AcceptedSize(size)
    ensures p < q < p + size ==> BitAnd(p, size - 1) != BitAnd(q, size - 1)
    ensures BitAnd(p + size, size - 1) == BitAnd(p, size - 1)
    ensures p < size ==> BitAnd(p, size - 1) == p
  {
    IndexIsMod(p, size);
    IndexIsMod(q, size);
    IndexIsMod(p + size, size);
    ModShift(p, size);
    if p < size {
      ModUnique(p, 0, size, p);
    }
    if p < q < p + size {
      ModGap(p, q, size);
    }
  }
}
