// Bitwise AND on naturals and powers of two: what lets a ring buffer index with `index & (size - 1)`.
module Bits {
  function BitAnd(x: nat, y: nat): (r: nat)
    decreases x
  {
    if x == 0 || y == 0 then 0
    else (if x % 2 == 1 && y % 2 == 1 then 1 else 0) + 2 * BitAnd(x / 2, y / 2)
  }

  function Pow2(k: nat): (p: nat)
    ensures p >= 1
  {
    if k == 0 then 1 else 2 * Pow2(k - 1)
  }

  ghost predicate IsPow2(n: nat) {
    exists k: nat :: n == Pow2(k)
  }

  // i with its k lowest bits dropped.
  function Shift(i: nat, k: nat): (q: nat) {
    if k == 0 then i else Shift(i / 2, k - 1)
  }

  // A mask of k ones keeps exactly the k lowest bits.
  lemma {:induction false} MaskSplits(i: nat, k: nat)
    ensures i == Shift(i, k) * Pow2(k) + BitAnd(i, Pow2(k) - 1)
    ensures BitAnd(i, Pow2(k) - 1) < Pow2(k)
    decreases k
  {
    var p := Pow2(k);
    if k == 0 {
    } else {
      var h := Pow2(k - 1);
      MaskSplits(i / 2, k - 1);
      assert (p - 1) / 2 == h - 1 && (p - 1) % 2 == 1;
      var q, r := Shift(i / 2, k - 1), BitAnd(i / 2, h - 1);
      assert BitAnd(i, p - 1) == i % 2 + 2 * r;
      DoubleQuotient(i, q, h, r);
    }
  }

  lemma DoubleQuotient(i: nat, q: nat, h: nat, r: nat)
    requires i / 2 == q * h + r
    ensures i == q * (2 * h) + (i % 2 + 2 * r)
  {
    assert q * (2 * h) == 2 * (q * h);
  }

  // Masking with a power of two minus one takes the remainder.
  lemma MaskIsMod(i: nat, k: nat)
    ensures BitAnd(i, Pow2(k) - 1) == i % Pow2(k)
  {
    MaskSplits(i, k);
    DivMod(i, Pow2(k));
    RemainderUnique(Pow2(k), Shift(i, k), BitAnd(i, Pow2(k) - 1), i / Pow2(k), i % Pow2(k));
  }

  lemma DivMod(i: nat, n: nat)
    requires n >= 1
    ensures i == (i / n) * n + i % n
  {
  }

  lemma RemainderUnique(n: nat, q: int, r: nat, q': int, r': nat)
    requires r < n && r' < n && q * n + r == q' * n + r'
    ensures r == r' && q == q'
  {
    MulDistrib(q - q', q, q', n);
    if q != q' {
      MulAtLeast(q - q', n);
    }
  }

  lemma MulDistrib(d: int, q: int, q': int, n: int)
    requires d == q - q'
    ensures d * n == q * n - q' * n
  {
  }

  lemma MulAtLeast(d: int, n: int)
    requires d != 0 && n >= 0
    ensures d * n >= n || d * n <= -n
  {
    if d >= 1 { assert (d - 1) * n >= 0; } else { assert (-d - 1) * n >= 0; }
  }

  lemma Pow2Doubles(n: nat)
    requires IsPow2(n)
    ensures IsPow2(2 * n)
  {
    var k: nat :| n == Pow2(k);
    assert 2 * n == Pow2(k + 1);
  }

  // The slot of logical index i in a ring of n items.
  function Slot(i: nat, n: nat): (r: nat)
    requires n >= 1
  {
    BitAnd(i, n - 1)
  }

  lemma SlotBound(i: nat, n: nat)
    requires n >= 1 && IsPow2(n)
    ensures Slot(i, n) < n
  {
    var k: nat :| n == Pow2(k);
    MaskSplits(i, k);
  }

  // Fewer than n apart, two indices never share a slot.
  lemma SlotsDistinct(i: nat, j: nat, n: nat)
    requires n >= 1 && IsPow2(n) && i < j < i + n
    ensures Slot(i, n) != Slot(j, n)
  {
    var k: nat :| n == Pow2(k);
    MaskSplits(i, k);
    MaskSplits(j, k);
    if Slot(i, n) == Slot(j, n) {
      MulDistrib(Shift(j, k) - Shift(i, k), Shift(j, k), Shift(i, k), n);
      if Shift(j, k) != Shift(i, k) {
        MulAtLeast(Shift(j, k) - Shift(i, k), n);
      }
    }
  }

  const MAX64: nat := 0xFFFF_FFFF_FFFF_FFFF

  // n - 1 in size_t arithmetic, which wraps at 0.
  function Dec64(n: nat): nat {
    if n == 0 then MAX64 else n - 1
  }

  // The constructor's test `(n & (n - 1)) == 0` accepts 0 and exactly the powers of two.
  lemma {:induction false} PowerOfTwoTest(n: nat)
    ensures BitAnd(n, Dec64(n)) == 0 <==> n == 0 || IsPow2(n)
    decreases n
  {
    if n == 0 {
    } else if n == 1 {
      assert n == Pow2(0);
    } else if n % 2 == 1 {
      OddIsNotPow2(n);
      assert (n - 1) / 2 == n / 2;
      AndSelf(n / 2);
      assert BitAnd(n, n - 1) == 2 * BitAnd(n / 2, n / 2);
    } else {
      PowerOfTwoTest(n / 2);
      assert (n - 1) / 2 == n / 2 - 1;
      if IsPow2(n) {
        var k: nat :| n == Pow2(k);
        assert k > 0 && n / 2 == Pow2(k - 1);
      }
      if IsPow2(n / 2) {
        Pow2Doubles(n / 2);
      }
    }
  }

  lemma OddIsNotPow2(n: nat)
    requires n >= 2 && n % 2 == 1
    ensures !IsPow2(n)
  {
    forall k: nat
      ensures n != Pow2(k)
    {
      if k > 0 { assert Pow2(k) % 2 == 0; }
    }
  }

  lemma {:induction false} AndSelf(x: nat)
    ensures BitAnd(x, x) == x
  {
    if x > 0 { AndSelf(x / 2); }
  }

  // ---- m | k and m & ~k ----

  function BitOr(x: nat, y: nat): nat
    decreases x + y
  {
    if x == 0 && y == 0 then 0
    else (if x % 2 == 1 || y % 2 == 1 then 1 else 0) + 2 * BitOr(x / 2, y / 2)
  }

  function BitAndNot(x: nat, y: nat): nat
    decreases x
  {
    if x == 0 then 0
    else (if x % 2 == 1 && y % 2 == 0 then 1 else 0) + 2 * BitAndNot(x / 2, y / 2)
  }

  // Bits set in both are counted twice by the sum, once by the or and once by the and.
  lemma {:induction false} OrPlusAnd(x: nat, y: nat)
    ensures BitOr(x, y) + BitAnd(x, y) == x + y
    decreases x + y
  {
    if x != 0 || y != 0 {
      OrPlusAnd(x / 2, y / 2);
      assert x == 2 * (x / 2) + x % 2 && y == 2 * (y / 2) + y % 2;
      if x == 0 || y == 0 { AndZero(x / 2, y / 2); }
    }
  }

  lemma AndZero(x: nat, y: nat)
    requires x == 0 || y == 0
    ensures BitAnd(x, y) == 0
  {
  }

  lemma {:induction false} AndNotPlusAnd(x: nat, y: nat)
    ensures BitAndNot(x, y) + BitAnd(x, y) == x
    decreases x
  {
    if x != 0 {
      AndNotPlusAnd(x / 2, y / 2);
      assert x == 2 * (x / 2) + x % 2;
      if y == 0 { AndZero(x / 2, y / 2); }
    }
  }
}
