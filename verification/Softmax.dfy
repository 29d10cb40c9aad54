/**
 Softmax-weighted sums over exact reals, and what rescaling by a running maximum leaves unchanged.
 The exponential is any function with its two laws.
*/
module Softmax {
  import opened Basics

  ghost predicate Law(exp: real -> real, x: real, y: real) {
    exp(x) > 0.0 && exp(x + y) == exp(x) * exp(y)
  }

  ghost predicate Exponential(exp: real -> real) {
    forall x: real, y: real :: Law(exp, x, y)
  }

  /** A score: masked keys have minus infinity. */
  datatype Score = Masked | Score(value: real)

  /** `exp(e)`, which is 0 for a masked key. */
  function Weight(exp: real -> real, e: Score): real {
    if e.Masked? then 0.0 else exp(e.value)
  }

  /** `exp(e - m)` for a finite `m`. */
  function Scaled(exp: real -> real, e: Score, m: real): real {
    if e.Masked? then 0.0 else exp(e.value - m)
  }

  /** Total weight of the keys from `lo` up to `hi`. */
  function Total(exp: real -> real, e: nat -> Score, lo: nat, hi: nat): real
    requires lo <= hi
  {
    if lo == hi then 0.0 else Total(exp, e, lo, hi - 1) + Weight(exp, e(hi - 1))
  }

  function WeightedSum(exp: real -> real, e: nat -> Score, v: nat -> real, lo: nat, hi: nat): real
    requires lo <= hi
  {
    if lo == hi then 0.0 else WeightedSum(exp, e, v, lo, hi - 1) + Mul(Weight(exp, e(hi - 1)), v(hi - 1))
  }

  /** The same sums with every score lowered by `m`. */
  function ScaledTotal(exp: real -> real, e: nat -> Score, m: real, lo: nat, hi: nat): real
    requires lo <= hi
  {
    if lo == hi then 0.0 else ScaledTotal(exp, e, m, lo, hi - 1) + Scaled(exp, e(hi - 1), m)
  }

  function ScaledSum(exp: real -> real, e: nat -> Score, v: nat -> real, m: real, lo: nat, hi: nat): real
    requires lo <= hi
  {
    if lo == hi then 0.0 else ScaledSum(exp, e, v, m, lo, hi - 1) + Mul(Scaled(exp, e(hi - 1), m), v(hi - 1))
  }

  ghost predicate AnyUnmasked(e: nat -> Score, lo: nat, hi: nat) {
    exists t :: lo <= t < hi && e(t).Score?
  }

  /** Softmax attention over the first `n` keys, in one pass and without any rescaling. */
  function Attention(exp: real -> real, e: nat -> Score, v: nat -> real, n: nat): real
    requires Total(exp, e, 0, n) != 0.0
  {
    WeightedSum(exp, e, v, 0, n) / Total(exp, e, 0, n)
  }

  /** Equal scores and values have equal sums. */
  lemma {:induction false} SameSums(exp: real -> real, e: nat -> Score, f: nat -> Score, v: nat -> real, w: nat -> real,
                                    n: nat)
    requires forall t :: 0 <= t < n ==> e(t) == f(t) && v(t) == w(t)
    ensures Total(exp, e, 0, n) == Total(exp, f, 0, n) && WeightedSum(exp, e, v, 0, n) == WeightedSum(exp, f, w, 0, n)
  {
    if n > 0 {
      SameSums(exp, e, f, v, w, n - 1);
    }
  }

  lemma Rescale(exp: real -> real, e: Score, m: real)
    requires Exponential(exp)
    ensures exp(m) > 0.0 && Mul(exp(m), Scaled(exp, e, m)) == Weight(exp, e) && Scaled(exp, e, m) >= 0.0
  {
    assert Law(exp, m, m);
    if e.Score? {
      assert Law(exp, m, e.value - m);
      assert m + (e.value - m) == e.value;
      assert Law(exp, e.value - m, 0.0);
    }
  }

  lemma {:induction false} RescaleTotal(exp: real -> real, e: nat -> Score, m: real, lo: nat, hi: nat)
    requires Exponential(exp) && lo <= hi
    ensures Mul(exp(m), ScaledTotal(exp, e, m, lo, hi)) == Total(exp, e, lo, hi)
  {
    if lo < hi {
      RescaleTotal(exp, e, m, lo, hi - 1);
      Rescale(exp, e(hi - 1), m);
      Distribute(exp(m), ScaledTotal(exp, e, m, lo, hi - 1), Scaled(exp, e(hi - 1), m));
    }
  }

  lemma {:induction false} RescaleSum(exp: real -> real, e: nat -> Score, v: nat -> real, m: real, lo: nat, hi: nat)
    requires Exponential(exp) && lo <= hi
    ensures Mul(exp(m), ScaledSum(exp, e, v, m, lo, hi)) == WeightedSum(exp, e, v, lo, hi)
  {
    if lo < hi {
      RescaleSum(exp, e, v, m, lo, hi - 1);
      Rescale(exp, e(hi - 1), m);
      Distribute(exp(m), ScaledSum(exp, e, v, m, lo, hi - 1), Mul(Scaled(exp, e(hi - 1), m), v(hi - 1)));
      Associate(exp(m), Scaled(exp, e(hi - 1), m), v(hi - 1), Weight(exp, e(hi - 1)));
    }
  }

  lemma Associate(a: real, x: real, y: real, ax: real)
    requires Mul(a, x) == ax
    ensures Mul(a, Mul(x, y)) == Mul(ax, y)
  {
  }

  lemma {:induction false} TotalSplits(exp: real -> real, e: nat -> Score, lo: nat, mid: nat, hi: nat)
    requires lo <= mid <= hi
    ensures Total(exp, e, lo, hi) == Total(exp, e, lo, mid) + Total(exp, e, mid, hi)
  {
    if mid < hi {
      TotalSplits(exp, e, lo, mid, hi - 1);
    }
  }

  lemma {:induction false} SumSplits(exp: real -> real, e: nat -> Score, v: nat -> real, lo: nat, mid: nat, hi: nat)
    requires lo <= mid <= hi
    ensures WeightedSum(exp, e, v, lo, hi) == WeightedSum(exp, e, v, lo, mid) + WeightedSum(exp, e, v, mid, hi)
  {
    if mid < hi {
      SumSplits(exp, e, v, lo, mid, hi - 1);
    }
  }

  /** The total weight is positive as soon as one key is not masked. */
  lemma {:induction false} TotalPositive(exp: real -> real, e: nat -> Score, lo: nat, hi: nat)
    requires Exponential(exp) && lo <= hi
    ensures Total(exp, e, lo, hi) >= 0.0 && (AnyUnmasked(e, lo, hi) ==> Total(exp, e, lo, hi) > 0.0)
  {
    if lo < hi {
      TotalPositive(exp, e, lo, hi - 1);
      assert e(hi - 1).Score? ==> Law(exp, e(hi - 1).value, 0.0);
      if AnyUnmasked(e, lo, hi) && e(hi - 1).Masked? {
        var t :| lo <= t < hi && e(t).Score?;
        assert AnyUnmasked(e, lo, hi - 1);
      }
    }
  }

  /** Masked keys contribute nothing. */
  lemma {:induction false} MaskedTail(exp: real -> real, e: nat -> Score, v: nat -> real, lo: nat, hi: nat)
    requires lo <= hi && forall t :: lo <= t < hi ==> e(t).Masked?
    ensures Total(exp, e, lo, hi) == 0.0 && WeightedSum(exp, e, v, lo, hi) == 0.0
  {
    if lo < hi {
      MaskedTail(exp, e, v, lo, hi - 1);
    }
  }

  // ---------------------------------------------------------------------- the state of a row between blocks

  /** The maximum so far, minus infinity before the first block. */
  function MaxScore(a: Score, b: Score): Score {
    if a.Masked? then b else if b.Masked? then a else if a.value >= b.value then a else b
  }

  function MaxOver(e: nat -> Score, lo: nat, hi: nat): Score
    requires lo <= hi
  {
    if lo == hi then Masked else MaxScore(MaxOver(e, lo, hi - 1), e(hi - 1))
  }

  /** No exponent exceeds 0 once the maximum is subtracted, and the maximum is finite unless every key is masked. */
  lemma {:induction false} MaxBounds(e: nat -> Score, lo: nat, hi: nat)
    requires lo <= hi
    ensures forall t :: lo <= t < hi && e(t).Score? ==>
            MaxOver(e, lo, hi).Score? && e(t).value <= MaxOver(e, lo, hi).value
    ensures MaxOver(e, lo, hi).Score? <==> AnyUnmasked(e, lo, hi)
  {
    if lo < hi {
      MaxBounds(e, lo, hi - 1);
      assert e(hi - 1).Score? ==> AnyUnmasked(e, lo, hi);
      assert AnyUnmasked(e, lo, hi - 1) ==> AnyUnmasked(e, lo, hi);
    }
  }

  /**
   The unnormalised form: after `n` keys the sums are those over the keys so far, lowered by the maximum.
   No exponent ever exceeds 0, as the maximum is one of the scores.
  */
  ghost predicate Unnormalised(exp: real -> real, e: nat -> Score, n: nat, m: Score, l: real) {
    && m == MaxOver(e, 0, n)
    && (m.Masked? ==> l == 0.0) && (m.Score? ==> Mul(exp(m.value), l) == Total(exp, e, 0, n))
  }

  ghost predicate UnnormalisedSum(exp: real -> real, e: nat -> Score, v: nat -> real, n: nat, m: Score, acc: real) {
    m.Score? ==> Mul(exp(m.value), acc) == WeightedSum(exp, e, v, 0, n)
  }

  /** Lowering the sums of the earlier keys from the old to the new maximum. */
  lemma Lower(exp: real -> real, m0: Score, m: real, x: real, sum: real)
    requires Exponential(exp) && (m0.Score? ==> Mul(exp(m0.value), x) == sum) && (m0.Masked? ==> sum == 0.0)
    ensures Mul(exp(m), Mul(Scaled(exp, m0, m), x)) == sum
  {
    Rescale(exp, m0, m);
    Associate(exp(m), Scaled(exp, m0, m), x, Weight(exp, m0));
  }

  lemma {:induction false} MaxOfBoth(e: nat -> Score, n0: nat, n1: nat)
    requires n0 <= n1
    ensures MaxOver(e, 0, n1) == MaxScore(MaxOver(e, 0, n0), MaxOver(e, n0, n1))
            == MaxScore(MaxOver(e, n0, n1), MaxOver(e, 0, n0))
  {
    if n0 < n1 {
      MaxOfBoth(e, n0, n1 - 1);
    }
  }

  /** Before any unmasked key the sums are empty. */
  lemma NothingYet(exp: real -> real, e: nat -> Score, v: nat -> real, n: nat)
    requires MaxOver(e, 0, n) == Masked
    ensures Total(exp, e, 0, n) == 0.0 && WeightedSum(exp, e, v, 0, n) == 0.0
  {
    MaxBounds(e, 0, n);
    MaskedTail(exp, e, v, 0, n);
  }

  /** One block of the running maximum and total, as both kernels compute it: all terms lowered to the new maximum. */
  lemma TotalStep(exp: real -> real, e: nat -> Score, n0: nat, n1: nat, m0: Score, l0: real, bm: Score, m: real,
                  l1: real)
    requires Exponential(exp) && n0 <= n1 && Unnormalised(exp, e, n0, m0, l0) && bm == MaxOver(e, n0, n1)
    requires MaxScore(m0, bm) == Score(m) && l1 == ScaledTotal(exp, e, m, n0, n1) + Mul(Scaled(exp, m0, m), l0)
    ensures Unnormalised(exp, e, n1, Score(m), l1) && l1 > 0.0
  {
    MaxOfBoth(e, n0, n1);
    if m0.Masked? {
      NothingYet(exp, e, (t: nat) => 0.0, n0);
    }
    Lower(exp, m0, m, l0, Total(exp, e, 0, n0));
    RescaleTotal(exp, e, m, n0, n1);
    TotalSplits(exp, e, 0, n0, n1);
    Distribute(exp(m), ScaledTotal(exp, e, m, n0, n1), Mul(Scaled(exp, m0, m), l0));
    PositiveRow(exp, e, n1, m, l1);
  }

  lemma PositiveRow(exp: real -> real, e: nat -> Score, n: nat, m: real, l: real)
    requires Exponential(exp) && MaxOver(e, 0, n) == Score(m) && Mul(exp(m), l) == Total(exp, e, 0, n)
    ensures l > 0.0
  {
    MaxBounds(e, 0, n);
    TotalPositive(exp, e, 0, n);
    assert Law(exp, m, 0.0);
    PositiveFactor(exp(m), l);
  }

  lemma PositiveFactor(a: real, x: real)
    requires a > 0.0 && Mul(a, x) > 0.0
    ensures x > 0.0
  {
  }

  /** The unnormalised accumulator, lowered in step with the maximum. */
  lemma SumStep(exp: real -> real, e: nat -> Score, v: nat -> real, n0: nat, n1: nat, m0: Score, acc0: real, m: real,
                acc1: real)
    requires Exponential(exp) && n0 <= n1 && m0 == MaxOver(e, 0, n0) && UnnormalisedSum(exp, e, v, n0, m0, acc0)
    requires acc1 == ScaledSum(exp, e, v, m, n0, n1) + Mul(Scaled(exp, m0, m), acc0)
    ensures UnnormalisedSum(exp, e, v, n1, Score(m), acc1)
  {
    if m0.Masked? {
      NothingYet(exp, e, v, n0);
    }
    Lower(exp, m0, m, acc0, WeightedSum(exp, e, v, 0, n0));
    RescaleSum(exp, e, v, m, n0, n1);
    SumSplits(exp, e, v, 0, n0, n1);
    Distribute(exp(m), ScaledSum(exp, e, v, m, n0, n1), Mul(Scaled(exp, m0, m), acc0));
  }

  /** Dividing the two sums at the end gives plain attention. */
  lemma QuotientIsAttention(exp: real -> real, e: nat -> Score, v: nat -> real, n: nat, m: Score, l: real, acc: real)
    requires Exponential(exp) && m.Score? && Unnormalised(exp, e, n, m, l) && UnnormalisedSum(exp, e, v, n, m, acc)
             && l > 0.0
    ensures Total(exp, e, 0, n) > 0.0 && acc * (1.0 / l) == Attention(exp, e, v, n)
  {
    assert Law(exp, m.value, 0.0);
    SameQuotient(exp(m.value), acc, l, WeightedSum(exp, e, v, 0, n), Total(exp, e, 0, n));
  }

  lemma SameQuotient(a: real, x: real, y: real, ax: real, ay: real)
    requires a > 0.0 && y > 0.0 && Mul(a, x) == ax && Mul(a, y) == ay
    ensures ay > 0.0 && x * (1.0 / y) == ax / ay
  {
    var q := x * (1.0 / y);
    assert q * y == x;
    assert q * (a * y) == a * (q * y);
  }

  // ----------------------------------------------------------- the form that is normalised after every block

  ghost predicate Normalised(exp: real -> real, e: nat -> Score, v: nat -> real, n: nat, acc: real) {
    Mul(acc, Total(exp, e, 0, n)) == WeightedSum(exp, e, v, 0, n)
  }

  /** The total, with the block lowered to its own maximum first. */
  lemma TwoStageTotal(exp: real -> real, e: nat -> Score, n0: nat, n1: nat, m0: Score, l0: real, b: real, m: real,
                      l1: real)
    requires Exponential(exp) && n0 <= n1 && Unnormalised(exp, e, n0, m0, l0) && Score(b) == MaxOver(e, n0, n1)
    requires MaxScore(m0, Score(b)) == Score(m)
    requires l1 == Mul(Scaled(exp, m0, m), l0) + Mul(Scaled(exp, Score(b), m), ScaledTotal(exp, e, b, n0, n1))
    ensures Unnormalised(exp, e, n1, Score(m), l1) && l1 > 0.0
  {
    MaxOfBoth(e, n0, n1);
    if m0.Masked? {
      NothingYet(exp, e, (t: nat) => 0.0, n0);
    }
    RescaleTotal(exp, e, b, n0, n1);
    Lower(exp, m0, m, l0, Total(exp, e, 0, n0));
    Lower(exp, Score(b), m, ScaledTotal(exp, e, b, n0, n1), Total(exp, e, n0, n1));
    TotalSplits(exp, e, 0, n0, n1);
    Distribute(exp(m), Mul(Scaled(exp, m0, m), l0), Mul(Scaled(exp, Score(b), m), ScaledTotal(exp, e, b, n0, n1)));
    PositiveRow(exp, e, n1, m, l1);
  }

  /** The old accumulator and the sum over a block, both over the new total. */
  function Renormalised(acc0: real, l0: real, l1: real, alpha: real, beta: real, sum: real): real
    requires l1 > 0.0
  {
    Mul(acc0, l0 / l1 * alpha) + Mul(beta / l1, sum)
  }

  /** The accumulator, renormalised by the new total. */
  lemma NormalisedStep(exp: real -> real, e: nat -> Score, v: nat -> real, n0: nat, n1: nat, m0: Score, l0: real,
                       acc0: real, b: real, m: real, l1: real, acc1: real)
    requires Exponential(exp) && n0 <= n1 && Unnormalised(exp, e, n0, m0, l0) && Normalised(exp, e, v, n0, acc0)
    requires l1 > 0.0 && Unnormalised(exp, e, n1, Score(m), l1)
    requires acc1 == Renormalised(acc0, l0, l1, Scaled(exp, m0, m), Scaled(exp, Score(b), m),
             ScaledSum(exp, e, v, b, n0, n1))
    ensures Normalised(exp, e, v, n1, acc1)
  {
    if m0.Masked? {
      NothingYet(exp, e, v, n0);
    }
    Lower(exp, m0, m, l0, Total(exp, e, 0, n0));
    RescaleSum(exp, e, v, b, n0, n1);
    Lower(exp, Score(b), m, ScaledSum(exp, e, v, b, n0, n1), WeightedSum(exp, e, v, n0, n1));
    SumSplits(exp, e, v, 0, n0, n1);
    Renormalise(exp(m), l1, Scaled(exp, m0, m), l0, acc0, Scaled(exp, Score(b), m), ScaledSum(exp, e, v, b, n0, n1),
                Total(exp, e, 0, n0), WeightedSum(exp, e, v, 0, n0), WeightedSum(exp, e, v, n0, n1), acc1);
  }

  lemma Renormalise(a: real, l1: real, alpha: real, l0: real, acc0: real, beta: real, s: real,
                    t0: real, w0: real, w1: real, acc1: real)
    requires l1 > 0.0 && Mul(a, Mul(alpha, l0)) == t0 && Mul(acc0, t0) == w0 && Mul(a, Mul(beta, s)) == w1
    requires acc1 == Renormalised(acc0, l0, l1, alpha, beta, s)
    ensures Mul(acc1, Mul(a, l1)) == w0 + w1
  {
    Cancel(l0, l1, alpha, a);
    Cancel(beta, l1, s, a);
    assert Mul(acc1, Mul(a, l1)) == acc0 * ((l0 / l1 * alpha) * (a * l1)) + (beta / l1 * s) * (a * l1);
  }

  lemma Cancel(x: real, l: real, y: real, a: real)
    requires l > 0.0
    ensures (x / l * y) * (a * l) == a * (y * x)
  {
    var q := x / l;
    assert q * l == x;
    assert (q * y) * (a * l) == a * (y * (q * l));
  }

  /** Normalised after the last key is plain attention. */
  lemma NormalisedIsAttention(exp: real -> real, e: nat -> Score, v: nat -> real, n: nat, acc: real)
    requires Normalised(exp, e, v, n, acc) && Total(exp, e, 0, n) > 0.0
    ensures acc == Attention(exp, e, v, n)
  {
    QuotientOf(acc, Total(exp, e, 0, n), WeightedSum(exp, e, v, 0, n));
  }

  lemma QuotientOf(a: real, t: real, w: real)
    requires t > 0.0 && Mul(a, t) == w
    ensures a == w / t
  {
    var q := w / t;
    assert q * t == w;
    assert (a - q) * t == 0.0;
  }

  /** Keys that are masked at the end of the range change nothing. */
  lemma MaskedEnd(exp: real -> real, e: nat -> Score, v: nat -> real, n: nat, hi: nat)
    requires n <= hi && forall t :: n <= t < hi ==> e(t).Masked?
    ensures Total(exp, e, 0, hi) == Total(exp, e, 0, n) && WeightedSum(exp, e, v, 0, hi) == WeightedSum(exp, e, v, 0, n)
  {
    MaskedTail(exp, e, v, n, hi);
    TotalSplits(exp, e, 0, n, hi);
    SumSplits(exp, e, v, 0, n, hi);
  }
}
