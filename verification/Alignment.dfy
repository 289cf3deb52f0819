/** Rounding an offset up to a power-of-two alignment.

    Every allocator in the crate rounds with the mask expression
    `(v + a - 1) & !(a - 1)` on a 64-bit `usize`.  The rest of the project
    reasons with `AlignUp`, the least multiple of `a` at or above `v`; this
    module shows when the two agree. */
module Alignment {

  const WORD_BITS: nat := 64

  /** The largest layout size Rust accepts (`isize::MAX`). */
  const MAX_LAYOUT: nat := 0x7FFF_FFFF_FFFF_FFFF

  function Pow2(k: nat): (p: nat)
    ensures p > 0
  {
    if k == 0 then 1 else 2 * Pow2(k - 1)
  }

  ghost predicate IsPow2(a: nat) {
    exists k: nat :: a == Pow2(k)
  }

  /** The least multiple of `a` at or above `v`. */
  function AlignUp(v: nat, a: nat): (r: nat)
    requires a > 0
    ensures v <= r < v + a
    ensures r % a == 0
  {
    RemainderCompleted(v, a);
    if v % a == 0 then v else v - v % a + a
  }

  /** Bitwise conjunction of the `w` low bits of `x` and `y`. */
  function BitAnd(x: nat, y: nat, w: nat): nat {
    if w == 0 then 0 else 2 * BitAnd(x / 2, y / 2, w - 1) + (x % 2) * (y % 2)
  }

  /** The source's expression on `w`-bit words: wrapping addition, complement, conjunction. */
  function MaskAlign(v: nat, a: nat, w: nat): nat
    requires 0 < a <= Pow2(w)
  {
    BitAnd((v + a - 1) % Pow2(w), Pow2(w) - 1 - (a - 1), w)
  }

  /** A request: a byte count and an alignment, as `core::alloc::Layout` admits them. */
  datatype Layout = Layout(size: nat, align: nat) {
    ghost predicate Valid() {
      && IsPow2(align)
      && align < 0x1_0000_0000_0000_0000
      && AlignUp(size, align) <= MAX_LAYOUT
    }
  }

  // ----- arithmetic -----

  lemma DivMod(n: nat, d: nat)
    requires d > 0
    ensures n == n / d * d + n % d
    ensures 0 <= n % d < d
  {
  }

  lemma RemainderCompleted(v: nat, a: nat)
    requires a > 0
    ensures 0 <= v % a < a && (v - v % a + a) % a == 0
  {
    DivMod(v, a);
    ModOfMultiple(v / a + 1, a);
    assert (v / a + 1) * a == v - v % a + a;
  }

  lemma ModOfMultiple(q: nat, d: nat)
    requires d > 0
    ensures (q * d) % d == 0
  {
    DivUnique(q * d, q, 0, d);
  }

  lemma {:induction false} MultipleGap(q: int, p: int, d: nat)
    requires q < p
    ensures q * d + d <= p * d
    decreases p - q
  {
    assert p * d == (p - 1) * d + d;
    if q + 1 < p {
      MultipleGap(q, p - 1, d);
    }
  }

  lemma QuotientUnique(q: int, r: nat, p: int, s: nat, d: nat)
    requires r < d && s < d && q * d + r == p * d + s
    ensures q == p && r == s
  {
    if q < p {
      MultipleGap(q, p, d);
    } else if p < q {
      MultipleGap(p, q, d);
    }
  }

  lemma DivUnique(n: nat, q: nat, r: nat, d: nat)
    requires d > 0 && n == q * d + r && r < d
    ensures n / d == q && n % d == r
  {
    DivMod(n, d);
    QuotientUnique(q, r, n / d, n % d, d);
  }

  lemma {:induction false} ModPlusMultiple(n: int, q: nat, d: nat)
    requires d > 0
    ensures (n + q * d) % d == n % d
    ensures (n - q * d) % d == n % d
  {
    if q > 0 {
      ModPlusMultiple(n, q - 1, d);
      assert q * d == (q - 1) * d + d;
      ModPlusOne(n + (q - 1) * d, d);
      ModPlusOne(n - q * d, d);
    }
  }

  lemma ModPlusOne(n: int, d: nat)
    requires d > 0
    ensures (n + d) % d == n % d
  {
    var q, p := n / d, (n + d) / d;
    assert n == q * d + n % d;
    assert n + d == p * d + (n + d) % d;
    assert (q + 1) * d == q * d + d;
    QuotientUnique(q + 1, n % d, p, (n + d) % d, d);
  }

  lemma ModShift(n: int, k: int, d: nat)
    requires d > 0
    ensures (n % d + k) % d == (n + k) % d
  {
    var q := n / d;
    assert n == q * d + n % d;
    if q >= 0 {
      ModPlusMultiple(n % d + k, q, d);
    } else {
      assert q * d == -((-q) * d);
      ModPlusMultiple(n % d + k, -q, d);
    }
  }

  /** No multiple of the alignment lies between an offset and its rounding. */
  lemma AlignUpIsLeast(v: nat, a: nat, m: nat)
    requires a > 0 && v <= m && m % a == 0
    ensures AlignUp(v, a) <= m
  {
    var r := AlignUp(v, a);
    if m < r {
      NoCloserMultiple(m, r, a);
    }
  }

  /** `m` is a multiple of `a` at or above `v`. */
  predicate MultipleFrom(m: nat, v: nat, a: nat)
    requires a > 0
  {
    v <= m && m % a == 0
  }

  /** `r` is the least one. */
  ghost predicate LeastFrom(r: nat, v: nat, a: nat)
    requires a > 0
  {
    MultipleFrom(r, v, a) && forall m: nat :: MultipleFrom(m, v, a) ==> r <= m
  }

  lemma AlignUpLeastFrom(v: nat, a: nat)
    requires a > 0
    ensures LeastFrom(AlignUp(v, a), v, a)
  {
    forall m: nat | MultipleFrom(m, v, a) ensures AlignUp(v, a) <= m {
      AlignUpIsLeast(v, a, m);
    }
  }

  lemma NoCloserMultiple(m: nat, r: nat, a: nat)
    requires a > 0 && m % a == 0 && r % a == 0 && m < r
    ensures m + a <= r
  {
    DivMod(m, a);
    DivMod(r, a);
    if r / a <= m / a {
      if r / a < m / a {
        MultipleGap(r / a, m / a, a);
      }
    } else {
      MultipleGap(m / a, r / a, a);
    }
  }

  lemma AlignUpOfMultiple(v: nat, a: nat)
    requires a > 0 && v % a == 0
    ensures AlignUp(v, a) == v
  {
    AlignUpIsLeast(v, a, v);
  }

  lemma AlignUpMonotone(v: nat, w: nat, a: nat)
    requires a > 0 && v <= w
    ensures AlignUp(v, a) <= AlignUp(w, a)
  {
    AlignUpIsLeast(v, a, AlignUp(w, a));
  }

  lemma {:induction false} Pow2Sum(j: nat, k: nat)
    ensures Pow2(j + k) == Pow2(j) * Pow2(k)
  {
    if j > 0 {
      Pow2Sum(j - 1, k);
    }
  }

  lemma Pow2Divides(j: nat, k: nat)
    requires j <= k
    ensures Pow2(k) % Pow2(j) == 0
  {
    Pow2Sum(k - j, j);
    ModOfMultiple(Pow2(k - j), Pow2(j));
  }

  lemma {:induction false} Pow2Grows(j: nat, k: nat)
    requires j < k
    ensures Pow2(j) < Pow2(k)
  {
    if j + 1 < k {
      Pow2Grows(j, k - 1);
    }
  }

  /** A multiple of 64 is a multiple of every power of two up to 64. */
  lemma SmallPowerDivides64(m: nat, a: nat)
    requires m % 64 == 0 && IsPow2(a) && a <= 64
    ensures a > 0 && m % a == 0
  {
    var k: nat :| a == Pow2(k);
    assert Pow2(6) == 64;
    if k > 6 {
      Pow2Grows(6, k);
    }
    Pow2Sum(6 - k, k);
    DivMod(m, 64);
    var q := m / 64 * Pow2(6 - k);
    assert m == q * a by {
      assert m == m / 64 * 64;
      assert 64 == Pow2(6 - k) * a;
    }
    ModOfMultiple(q, a);
  }

  // ----- the mask form -----

  /** Conjunction with the complement of `2^k - 1` clears the `k` low bits. */
  lemma {:induction false} MaskClearsLowBits(x: nat, k: nat, w: nat)
    requires k <= w && x < Pow2(w)
    ensures Pow2(k) <= Pow2(w)
    ensures BitAnd(x, Pow2(w) - Pow2(k), w) == x / Pow2(k) * Pow2(k)
  {
    if k < w {
      Pow2Grows(k, w);
    }
    if k == 0 {
      AllOnes(x, w);
    } else {
      MaskClearsLowBits(x / 2, k - 1, w - 1);
      MaskStep(x, Pow2(k - 1), Pow2(w - 1), w);
    }
  }

  lemma MaskStep(x: nat, p: nat, half: nat, w: nat)
    requires 0 < p <= half && w > 0 && BitAnd(x / 2, half - p, w - 1) == x / 2 / p * p
    ensures BitAnd(x, 2 * half - 2 * p, w) == x / (2 * p) * (2 * p)
  {
    MaskStepEven(p, half);
    QuotientStep(x, p);
  }

  lemma {:induction false} AllOnes(x: nat, w: nat)
    requires x < Pow2(w)
    ensures BitAnd(x, Pow2(w) - 1, w) == x
  {
    if w > 0 {
      AllOnes(x / 2, w - 1);
      MaskStepOdd(Pow2(w - 1));
    }
  }

  lemma MaskStepOdd(half: nat)
    requires half > 0
    ensures (2 * half - 1) / 2 == half - 1 && (2 * half - 1) % 2 == 1
  {
  }

  lemma MaskStepEven(p: nat, half: nat)
    requires 0 < p <= half
    ensures (2 * half - 2 * p) / 2 == half - p && (2 * half - 2 * p) % 2 == 0
  {
  }

  lemma QuotientStep(x: nat, p: nat)
    requires p > 0
    ensures 2 * (x / 2 / p * p) == x / (2 * p) * (2 * p)
  {
    var q := x / 2 / p;
    HalvedQuotient(x, p);
    Reassociate(q, p);
  }

  lemma Reassociate(q: nat, p: nat)
    ensures 2 * (q * p) == q * (2 * p)
  {
  }

  lemma HalvedQuotient(x: nat, p: nat)
    requires p > 0
    ensures x / 2 / p == x / (2 * p)
  {
    var q, r := x / 2 / p, x / 2 % p;
    DivMod(x / 2, p);
    assert x == (q * p + r) * 2 + x % 2;
    assert (q * p + r) * 2 == q * (2 * p) + 2 * r;
    DivUnique(x, q, 2 * r + x % 2, 2 * p);
  }

  lemma RoundedDown(v: nat, a: nat)
    requires a > 0
    ensures (v + a - 1) / a * a == AlignUp(v, a)
  {
    var m, r := (v + a - 1) / a * a, AlignUp(v, a);
    DivMod(v + a - 1, a);
    ModOfMultiple((v + a - 1) / a, a);
    AlignUpIsLeast(v, a, m);
    if r < m {
      NoCloserMultiple(r, m, a);
    }
  }

  /** Rounding down the wrapped sum gives the least multiple unless it wrapped. */
  lemma WrappedRounding(v: nat, a: nat, word: nat)
    requires 0 < a <= word && v < word
    ensures var sum := v + a - 1;
            sum % word / a * a == if sum < word then AlignUp(v, a) else 0
  {
    var sum := v + a - 1;
    if sum < word {
      DivUnique(sum, 0, sum, word);
      RoundedDown(v, a);
    } else {
      DivUnique(sum, 1, sum - word, word);
      DivUnique(sum - word, 0, sum - word, a);
    }
  }

  /** The mask expression is the least multiple exactly when its addition does
      not wrap; when it wraps, the result is zero. */
  lemma MaskIsAlignUpIffNoWrap(v: nat, k: nat, w: nat)
    requires k <= w && v < Pow2(w)
    ensures 0 < Pow2(k) <= Pow2(w)
    ensures MaskAlign(v, Pow2(k), w) == AlignUp(v, Pow2(k)) <==> v + Pow2(k) - 1 < Pow2(w)
    ensures v + Pow2(k) - 1 >= Pow2(w) ==> MaskAlign(v, Pow2(k), w) == 0
  {
    var word, a := Pow2(w), Pow2(k);
    if k < w {
      Pow2Grows(k, w);
    }
    var sum := (v + a - 1) % word;
    DivMod(v + a - 1, word);
    MaskClearsLowBits(sum, k, w);
    assert word - 1 - (a - 1) == word - a;
    assert MaskAlign(v, a, w) == sum / a * a;
    WrappedRounding(v, a, word);
    if v + a - 1 >= word {
      assert AlignUp(v, a) >= 1;
    }
  }

  lemma WordValue()
    ensures Pow2(WORD_BITS) == 2 * (MAX_LAYOUT + 1)
    ensures Pow2(63) == MAX_LAYOUT + 1
  {
    assert Pow2(8) == 256;
    Pow2Sum(8, 8);
    Pow2Sum(16, 16);
    Pow2Sum(32, 32);
  }

  /** For every valid layout, rounding an offset inside an allocation neither
      wraps nor makes the end of the block overflow. */
  lemma ValidLayoutNeverOverflows(used: nat, layout: Layout)
    requires layout.Valid() && used <= MAX_LAYOUT
    ensures 0 < layout.align <= Pow2(WORD_BITS)
    ensures MaskAlign(used, layout.align, WORD_BITS) == AlignUp(used, layout.align)
    ensures AlignUp(used, layout.align) + layout.size < Pow2(WORD_BITS)
  {
    var k: nat :| layout.align == Pow2(k);
    WordValue();
    if k >= WORD_BITS {
      if k > WORD_BITS {
        Pow2Grows(WORD_BITS, k);
      }
      assert false;
    }
    if k < 63 {
      Pow2Grows(k, 63);
    }
    MaskIsAlignUpIffNoWrap(used, k, WORD_BITS);
    AlignUpIsLeast(used, layout.align, Pow2(63)) by { Pow2Divides(k, 63); }
  }
}
