/**
 The CPU decode kernel: grouped-query attention of one query per sequence over its window of the
 key/value pool, block by block, with a running maximum and unnormalised sums.
*/
module FlashAttention {
  import opened Basics
  import opened Softmax

  /** Indexed by token (or sequence), head and dimension. */
  type Tensor = seq<seq<seq<real>>>

  predicate Shaped(x: Tensor, heads: nat, dim: nat) {
    forall t :: 0 <= t < |x| ==> |x[t]| == heads && forall h :: 0 <= h < heads ==> |x[t][h]| == dim
  }

  /** The scores of a query against the keys of one head from `start` on. */
  function ScoresOf(scale: real, q: seq<real>, key: Tensor, start: nat, j: nat): nat -> Score {
    (t: nat) => if start + t < |key| && j < |key[start + t]| && |key[start + t][j]| == |q| then
      Score(Mul(scale, Dot(q, key[start + t][j])))
                else Masked
  }

  function ValuesOf(value: Tensor, start: nat, j: nat, d: nat): nat -> real {
    (t: nat) => if start + t < |value| && j < |value[start + t]| && d < |value[start + t][j]| then
      value[start + t][j][d] else 0.0
  }

  // ---------------------------------------------------------------------------- attention, written out

  /** The key or value of head `j` at position `t` of a window. */
  function At(x: Tensor, start: nat, j: nat, t: nat): seq<real> {
    Nth(Nth(x, start + t, []), j, [])
  }

  /** The weight of a key before it is normalised. */
  function PlainWeight(exp: real -> real, scale: real, q: seq<real>, k: seq<real>): real {
    exp(Mul(scale, SumOf(Terms(q, k), |q|)))
  }

  function PlainWeights(exp: real -> real, scale: real, q: seq<real>, key: Tensor, start: nat, j: nat): nat -> real {
    (t: nat) => PlainWeight(exp, scale, q, At(key, start, j, t))
  }

  function PlainValues(value: Tensor, start: nat, j: nat, d: nat): nat -> real {
    (t: nat) => Nth(At(value, start, j, t), d, 0.0)
  }

  function Products(f: nat -> real, g: nat -> real): nat -> real {
    (t: nat) => f(t) * g(t)
  }

  /** `y` is the weighted mean of the values of a window. */
  ghost predicate PlainlyAttends(exp: real -> real, scale: real, q: seq<real>, key: Tensor, value: Tensor, start: nat,
                                 len: nat, j: nat, d: nat, y: real) {
    var w := PlainWeights(exp, scale, q, key, start, j);
    SumOf(w, len) > 0.0 && y * SumOf(w, len) == SumOf(Products(w, PlainValues(value, start, j, d)), len)
  }

  function Scale(scale: real, q: seq<real>): (r: seq<real>)
    ensures |r| == |q|
  {
    seq(|q|, i requires 0 <= i < |q| => scale * q[i])
  }

  /**
   `y` is attention, written out; the same value belongs to the scaled query with scale 1, and with scale 0 it is the
   mean of the values.
  */
  ghost predicate PlainlyRight(exp: real -> real, scale: real, q: seq<real>, key: Tensor, value: Tensor, start: nat,
                               len: nat, j: nat, d: nat, y: real) {
    && PlainlyAttends(exp, scale, q, key, value, start, len, j, d, y)
    && PlainlyAttends(exp, 1.0, Scale(scale, q), key, value, start, len, j, d, y)
    && (scale == 0.0 ==> y * len as real == SumOf(PlainValues(value, start, j, d), len))
  }

  lemma {:induction false} SumsArePlain(exp: real -> real, e: nat -> Score, v: nat -> real, w: nat -> real,
                                        u: nat -> real, n: nat)
    requires forall t: nat :: t < n ==> Weight(exp, e(t)) == w(t) && v(t) == u(t)
    ensures Total(exp, e, 0, n) == SumOf(w, n) && WeightedSum(exp, e, v, 0, n) == SumOf(Products(w, u), n)
  {
    if n > 0 {
      SumsArePlain(exp, e, v, w, u, n - 1);
    }
  }

  lemma SameExp(exp: real -> real, x: real, y: real)
    requires x == y
    ensures exp(x) == exp(y)
  {
  }

  lemma WeightIsPlain(exp: real -> real, scale: real, q: seq<real>, k: seq<real>, p: real)
    requires p == Mul(scale, SumOf(Terms(q, k), |q|))
    ensures Weight(exp, Score(p)) == PlainWeight(exp, scale, q, k)
  {
    SameExp(exp, p, Mul(scale, SumOf(Terms(q, k), |q|)));
  }

  lemma ScoreIsPlain(exp: real -> real, scale: real, q: seq<real>, key: Tensor, start: nat, j: nat, t: nat)
    requires start + t < |key| && j < |key[start + t]| && |key[start + t][j]| == |q|
    ensures Weight(exp, ScoresOf(scale, q, key, start, j)(t)) == PlainWeights(exp, scale, q, key, start, j)(t)
  {
    var k := key[start + t][j];
    DotIsSum(q, k, |q|);
    assert q[..|q|] == q && k[..|q|] == k;
    WeightIsPlain(exp, scale, q, k, Mul(scale, Dot(q, k)));
    assert PlainWeights(exp, scale, q, key, start, j)(t) == PlainWeight(exp, scale, q, k);
  }

  lemma {:induction false} ScaledTerms(scale: real, q: seq<real>, k: seq<real>, n: nat)
    ensures SumOf(Terms(Scale(scale, q), k), n) == scale * SumOf(Terms(q, k), n)
  {
    if n > 0 {
      ScaledTerms(scale, q, k, n - 1);
      var a, b := Nth(q, n - 1, 0.0), Nth(k, n - 1, 0.0);
      assert (scale * a) * b == scale * (a * b);
      assert scale * (SumOf(Terms(q, k), n - 1) + a * b) == scale * SumOf(Terms(q, k), n - 1) + scale * (a * b);
    }
  }

  lemma ScaledWeight(exp: real -> real, scale: real, q: seq<real>, k: seq<real>)
    ensures PlainWeight(exp, 1.0, Scale(scale, q), k) == PlainWeight(exp, scale, q, k)
  {
    ScaledTerms(scale, q, k, |q|);
    SameExp(exp, Mul(1.0, SumOf(Terms(Scale(scale, q), k), |q|)), Mul(scale, SumOf(Terms(q, k), |q|)));
  }

  lemma ScaledQuery(exp: real -> real, scale: real, q: seq<real>, key: Tensor, value: Tensor, start: nat, len: nat,
                    j: nat, d: nat, y: real)
    requires PlainlyAttends(exp, scale, q, key, value, start, len, j, d, y)
    ensures PlainlyAttends(exp, 1.0, Scale(scale, q), key, value, start, len, j, d, y)
  {
    var w, s := PlainWeights(exp, scale, q, key, start, j), PlainWeights(exp, 1.0, Scale(scale, q), key, start, j);
    forall t: nat | t < len
      ensures w(t) == s(t)
    {
      ScaledWeight(exp, scale, q, At(key, start, j, t));
    }
    var v := PlainValues(value, start, j, d);
    SumsEqual(w, s, len);
    SumsEqual(Products(w, v), Products(s, v), len);
  }

  lemma ExpOfZero(exp: real -> real)
    requires Exponential(exp)
    ensures exp(0.0) == 1.0
  {
    assert Law(exp, 0.0, 0.0);
    SameExp(exp, 0.0 + 0.0, 0.0);
    assert exp(0.0) * (exp(0.0) - 1.0) == 0.0;
  }

  lemma {:induction false} SumOfOnes(f: nat -> real, n: nat)
    requires forall t: nat :: t < n ==> f(t) == 1.0
    ensures SumOf(f, n) == n as real
  {
    if n > 0 {
      SumOfOnes(f, n - 1);
    }
  }

  lemma MeanAtScaleZero(exp: real -> real, q: seq<real>, key: Tensor, value: Tensor, start: nat, len: nat, j: nat,
                        d: nat, y: real)
    requires Exponential(exp) && PlainlyAttends(exp, 0.0, q, key, value, start, len, j, d, y)
    ensures y * len as real == SumOf(PlainValues(value, start, j, d), len)
  {
    var w, v := PlainWeights(exp, 0.0, q, key, start, j), PlainValues(value, start, j, d);
    ExpOfZero(exp);
    forall t: nat
      ensures w(t) == 1.0
    {
      SameExp(exp, Mul(0.0, SumOf(Terms(q, At(key, start, j, t)), |q|)), 0.0);
    }
    SumOfOnes(w, len);
    SumsEqual(Products(w, v), v, len);
  }

  /** The quotient of the two sums of a window is attention, written out. */
  lemma AttentionIsPlain(exp: real -> real, scale: real, q: seq<real>, key: Tensor, value: Tensor, start: nat, len: nat,
                         j: nat, d: nat, y: real)
    requires Exponential(exp) && start + len <= |key| && start + len <= |value|
    requires forall t :: start <= t < start + len ==> j < |key[t]| && |key[t][j]| == |q|
    requires forall t :: start <= t < start + len ==> j < |value[t]| && d < |value[t][j]|
    requires var e := ScoresOf(scale, q, key, start, j);
             Total(exp, e, 0, len) > 0.0 && y == Attention(exp, e, ValuesOf(value, start, j, d), len)
    ensures PlainlyRight(exp, scale, q, key, value, start, len, j, d, y)
  {
    var e, v := ScoresOf(scale, q, key, start, j), ValuesOf(value, start, j, d);
    var w, u := PlainWeights(exp, scale, q, key, start, j), PlainValues(value, start, j, d);
    forall t: nat | t < len
      ensures Weight(exp, e(t)) == w(t) && v(t) == u(t)
    {
      ScoreIsPlain(exp, scale, q, key, start, j, t);
    }
    SumsArePlain(exp, e, v, w, u, len);
    ScaledQuery(exp, scale, q, key, value, start, len, j, d, y);
    if scale == 0.0 {
      MeanAtScaleZero(exp, q, key, value, start, len, j, d, y);
    }
  }

  // ------------------------------------------------------------------------------------------ the kernel

  /** Largest of the scores in a row of the block. */
  method VecMax(qk: array2<real>, row: nat, size: nat, ghost e: nat -> Score, ghost n: nat) returns (max: Score)
    requires row < qk.Length0 && size <= qk.Length1
    requires forall c :: 0 <= c < size ==> e(n + c) == Score(qk[row, c])
    ensures max == MaxOver(e, n, n + size) && (size > 0 ==> max.Score?)
  {
    max := Masked;
    for c := 0 to size
      invariant max == MaxOver(e, n, n + c) && (c > 0 ==> max.Score?)
    {
      assert e(n + c) == Score(qk[row, c]);
      max := MaxScore(max, Score(qk[row, c]));
    }
  }

  /** Replaces a row of the block by its exponentials, lowered by `val`, and adds them up. */
  method ExpReduceSum(exp: real -> real, qk: array2<real>, row: nat, size: nat, val: real, ghost e: nat -> Score,
                      ghost n: nat) returns (sum: real)
    requires row < qk.Length0 && size <= qk.Length1
    requires forall c :: 0 <= c < size ==> e(n + c) == Score(qk[row, c])
    modifies qk
    ensures forall c :: 0 <= c < size ==> qk[row, c] == Scaled(exp, e(n + c), val)
    ensures forall r, c :: 0 <= r < qk.Length0 && 0 <= c < qk.Length1 && r != row ==> qk[r, c] == old(qk[r, c])
    ensures sum == ScaledTotal(exp, e, val, n, n + size)
  {
    sum := 0.0;
    for c := 0 to size
      invariant forall k :: 0 <= k < c ==> qk[row, k] == Scaled(exp, e(n + k), val)
      invariant forall k :: c <= k < size ==> qk[row, k] == old(qk[row, k])
      invariant forall r, k :: 0 <= r < qk.Length0 && 0 <= k < qk.Length1 && r != row ==> qk[r, k] == old(qk[r, k])
      invariant sum == ScaledTotal(exp, e, val, n, n + c)
    {
      var tmp := exp(qk[row, c] - val);
      assert tmp == Scaled(exp, e(n + c), val);
      sum := sum + tmp;
      qk[row, c] := tmp;
    }
  }

  /** The scores of a block: a matrix product of the queries with the keys. */
  method ScoreBlock(qk: array2<real>, q: seq<seq<real>>, key: Tensor, start: nat, j: nat, n: nat, size: nat,
                    scale: real, ghost heads: nat, ghost dim: nat)
    requires |q| == qk.Length0 && size <= qk.Length1 && start + n + size <= |key| && j < heads
             && Shaped(key, heads, dim)
    requires forall r :: 0 <= r < |q| ==> |q[r]| == dim
    modifies qk
    ensures forall r, c :: 0 <= r < |q| && 0 <= c < size ==>
            ScoresOf(scale, q[r], key, start, j)(n + c) == Score(qk[r, c])
  {
    for r := 0 to |q|
      invariant forall k, c :: 0 <= k < r && 0 <= c < size ==>
                ScoresOf(scale, q[k], key, start, j)(n + c) == Score(qk[k, c])
    {
      for c := 0 to size
        invariant forall k, i :: 0 <= k < r && 0 <= i < size ==>
                  ScoresOf(scale, q[k], key, start, j)(n + i) == Score(qk[k, i])
        invariant forall i :: 0 <= i < c ==> ScoresOf(scale, q[r], key, start, j)(n + i) == Score(qk[r, i])
      {
        qk[r, c] := Mul(scale, Dot(q[r], key[start + n + c][j]));
      }
    }
  }

  /** The softmax coefficients of one row after a block: new maximum and sum, block and accumulator lowered to it. */
  method UpdateRow(exp: real -> real, qk: array2<real>, qkMax: array<Score>, qkSum: array<real>, dst: array2<real>,
                   row: nat, n: nat, size: nat, ghost e: nat -> Score)
    requires Exponential(exp) && size > 0 && qkMax != qkSum as object && qk != dst
    requires row < qk.Length0 == qkMax.Length == qkSum.Length == dst.Length0 && size <= qk.Length1
    requires forall c :: 0 <= c < size ==> e(n + c) == Score(qk[row, c])
    requires Unnormalised(exp, e, n, qkMax[row], qkSum[row])
    modifies qk, qkMax, qkSum, dst
    ensures qkMax[row].Score? && Unnormalised(exp, e, n + size, qkMax[row], qkSum[row]) && qkSum[row] > 0.0
    ensures forall c :: 0 <= c < size ==> qk[row, c] == Scaled(exp, e(n + c), qkMax[row].value)
    ensures n > 0 ==> forall d :: 0 <= d < dst.Length1 ==>
            dst[row, d] == Mul(Scaled(exp, old(qkMax[row]), qkMax[row].value), old(dst[row, d]))
    ensures forall r :: 0 <= r < qkMax.Length && r != row ==> qkMax[r] == old(qkMax[r]) && qkSum[r] == old(qkSum[r])
    ensures forall r, c :: 0 <= r < qk.Length0 && 0 <= c < qk.Length1 && r != row ==> qk[r, c] == old(qk[r, c])
    ensures forall r, d :: 0 <= r < dst.Length0 && 0 <= d < dst.Length1 && r != row ==> dst[r, d] == old(dst[r, d])
  {
    var blockMax := VecMax(qk, row, size, e, n);
    var tmpMax := MaxScore(qkMax[row], blockMax).value;
    var tmpSum := ExpReduceSum(exp, qk, row, size, tmpMax, e, n);
    var expTmp := Scaled(exp, qkMax[row], tmpMax);
    ghost var m0, l0 := qkMax[row], qkSum[row];
    qkSum[row] := tmpSum + Mul(expTmp, qkSum[row]);
    qkMax[row] := Score(tmpMax);
    TotalStep(exp, e, n, n + size, m0, l0, blockMax, tmpMax, qkSum[row]);
    if n > 0 {
      for d := 0 to dst.Length1
        invariant forall i :: 0 <= i < d ==> dst[row, i] == Mul(expTmp, old(dst[row, i]))
        invariant forall i :: d <= i < dst.Length1 ==> dst[row, i] == old(dst[row, i])
        invariant forall r, i :: 0 <= r < dst.Length0 && 0 <= i < dst.Length1 && r != row ==>
                  dst[r, i] == old(dst[r, i])
        modifies dst
      {
        dst[row, d] := Mul(expTmp, dst[row, d]);
      }
    }
  }

  /** The accumulator after a block: what it held is dropped at the first block. */
  function Accumulated(exp: real -> real, e: nat -> Score, v: nat -> real, m: real, n: nat, size: nat,
                       before: real): real {
    ScaledSum(exp, e, v, m, n, n + size) + if n == 0 then 0.0 else before
  }

  /** One dimension of the values of a block, weighted by a row of the block. */
  method WeightedValue(exp: real -> real, qk: array2<real>, row: nat, value: Tensor, start: nat, j: nat, n: nat,
                       size: nat, d: nat, ghost heads: nat, ghost dim: nat, ghost e: nat -> Score, ghost m: real)
    returns (sum: real)
    requires row < qk.Length0 && size <= qk.Length1 && start + n + size <= |value| && j < heads && d < dim
             && Shaped(value, heads, dim)
    requires forall c :: 0 <= c < size ==> qk[row, c] == Scaled(exp, e(n + c), m)
    ensures sum == ScaledSum(exp, e, ValuesOf(value, start, j, d), m, n, n + size)
  {
    sum := 0.0;
    for c := 0 to size
      invariant sum == ScaledSum(exp, e, ValuesOf(value, start, j, d), m, n, n + c)
    {
      assert value[start + n + c][j][d] == ValuesOf(value, start, j, d)(n + c);
      sum := sum + Mul(qk[row, c], value[start + n + c][j][d]);
    }
  }

  /** Adds the values of a block, weighted by the rows of the block, to the accumulator: a matrix product. */
  method AccumulateBlock(exp: real -> real, qk: array2<real>, dst: array2<real>, value: Tensor, start: nat, j: nat,
                         n: nat, size: nat, ghost heads: nat, ghost es: seq<nat -> Score>, ghost ms: seq<real>)
    requires qk != dst && qk.Length0 == dst.Length0 == |es| == |ms| && size <= qk.Length1
    requires start + n + size <= |value| && j < heads && Shaped(value, heads, dst.Length1)
    requires forall r, c :: 0 <= r < |es| && 0 <= c < size ==> qk[r, c] == Scaled(exp, es[r](n + c), ms[r])
    modifies dst
    ensures forall r, d :: 0 <= r < |es| && 0 <= d < dst.Length1 ==>
              dst[r, d] == Accumulated(exp, es[r], ValuesOf(value, start, j, d), ms[r], n, size, old(dst[r, d]))
  {
    for r := 0 to dst.Length0
      invariant forall k, d :: 0 <= k < r && 0 <= d < dst.Length1 ==>
                  dst[k, d] == Accumulated(exp, es[k], ValuesOf(value, start, j, d), ms[k], n, size, old(dst[k, d]))
      invariant forall k, d :: r <= k < dst.Length0 && 0 <= d < dst.Length1 ==> dst[k, d] == old(dst[k, d])
    {
      for d := 0 to dst.Length1
        invariant forall k, i :: 0 <= k < dst.Length0 && 0 <= i < dst.Length1 && (k < r || (k == r && i < d)) ==>
                    dst[k, i] == Accumulated(exp, es[k], ValuesOf(value, start, j, i), ms[k], n, size, old(dst[k, i]))
        invariant forall k, i :: 0 <= k < dst.Length0 && 0 <= i < dst.Length1 && !(k < r || (k == r && i < d)) ==>
                  dst[k, i] == old(dst[k, i])
      {
        var sum := WeightedValue(exp, qk, r, value, start, j, n, size, d, heads, dst.Length1, es[r], ms[r]);
        dst[r, d] := sum + if n == 0 then 0.0 else dst[r, d];
      }
    }
  }

  /** The softmax coefficients of all rows of the group. */
  method UpdateRows(exp: real -> real, qk: array2<real>, qkMax: array<Score>, qkSum: array<real>, dst: array2<real>,
                    n: nat, size: nat, ghost es: seq<nat -> Score>)
    requires Exponential(exp) && size > 0 && qkMax != qkSum as object && qk != dst
    requires |es| == qk.Length0 == qkMax.Length == qkSum.Length == dst.Length0 && size <= qk.Length1
    requires forall r, c :: 0 <= r < |es| && 0 <= c < size ==> es[r](n + c) == Score(qk[r, c])
    requires forall r :: 0 <= r < |es| ==> Unnormalised(exp, es[r], n, qkMax[r], qkSum[r])
    modifies qk, qkMax, qkSum, dst
    ensures forall r :: 0 <= r < |es| ==>
              qkMax[r].Score? && Unnormalised(exp, es[r], n + size, qkMax[r], qkSum[r]) && qkSum[r] > 0.0
    ensures forall r, c :: 0 <= r < |es| && 0 <= c < size ==> qk[r, c] == Scaled(exp, es[r](n + c), qkMax[r].value)
    ensures n > 0 ==> forall r, d :: 0 <= r < |es| && 0 <= d < dst.Length1 ==>
              dst[r, d] == Mul(Scaled(exp, old(qkMax[r]), qkMax[r].value), old(dst[r, d]))
  {
    for row := 0 to qkMax.Length
      invariant forall r :: 0 <= r < row ==>
                  qkMax[r].Score? && Unnormalised(exp, es[r], n + size, qkMax[r], qkSum[r]) && qkSum[r] > 0.0
      invariant forall r, c :: 0 <= r < row && 0 <= c < size ==> qk[r, c] == Scaled(exp, es[r](n + c), qkMax[r].value)
      invariant n > 0 ==> forall r, d :: 0 <= r < row && 0 <= d < dst.Length1 ==>
                  dst[r, d] == Mul(Scaled(exp, old(qkMax[r]), qkMax[r].value), old(dst[r, d]))
      invariant forall r :: row <= r < |es| ==> qkMax[r] == old(qkMax[r]) && qkSum[r] == old(qkSum[r])
      invariant forall r, c :: row <= r < |es| && 0 <= c < qk.Length1 ==> qk[r, c] == old(qk[r, c])
      invariant forall r, d :: row <= r < |es| && 0 <= d < dst.Length1 ==> dst[r, d] == old(dst[r, d])
    {
      UpdateRow(exp, qk, qkMax, qkSum, dst, row, n, size, es[row]);
    }
  }

  /** The group's rows after the first `n` keys. */
  ghost predicate RowsAfter(exp: real -> real, es: seq<nat -> Score>, n: nat, qkMax: seq<Score>, qkSum: seq<real>) {
    |es| == |qkMax| == |qkSum| && forall r :: 0 <= r < |es| ==> Unnormalised(exp, es[r], n, qkMax[r], qkSum[r])
  }

  ghost predicate SumsAfter(exp: real -> real, es: seq<nat -> Score>, value: Tensor, start: nat, j: nat, n: nat,
                            qkMax: array<Score>, dst: array2<real>)
    reads qkMax, dst
  {
    && |es| == qkMax.Length == dst.Length0
    && forall r, d :: 0 <= r < |es| && 0 <= d < dst.Length1 ==>
         UnnormalisedSum(exp, es[r], ValuesOf(value, start, j, d), n, qkMax[r], dst[r, d])
  }

  ghost function Maxima(ms: seq<Score>): (r: seq<real>)
    requires forall i :: 0 <= i < |ms| ==> ms[i].Score?
    ensures |r| == |ms| && forall i :: 0 <= i < |ms| ==> r[i] == ms[i].value
  {
    seq(|ms|, i requires 0 <= i < |ms| => ms[i].value)
  }

  ghost predicate Positive(qkMax: seq<Score>, qkSum: seq<real>) {
    |qkMax| == |qkSum| && forall r :: 0 <= r < |qkMax| ==> qkMax[r].Score? && qkSum[r] > 0.0
  }

  /** Everything the buffers hold about the group after the first `n` keys. */
  ghost predicate GroupAfter(exp: real -> real, es: seq<nat -> Score>, value: Tensor, start: nat, j: nat, n: nat,
                             qkMax: array<Score>, qkSum: array<real>, dst: array2<real>)
    reads qkMax, qkSum, dst
  {
    && RowsAfter(exp, es, n, qkMax[..], qkSum[..]) && SumsAfter(exp, es, value, start, j, n, qkMax, dst)
    && (n > 0 ==> Positive(qkMax[..], qkSum[..]))
  }

  /** One block of keys and values for all query heads of the group. */
  method DecodeBlock(exp: real -> real, qk: array2<real>, qkMax: array<Score>, qkSum: array<real>, dst: array2<real>,
                     q: seq<seq<real>>, key: Tensor, value: Tensor, start: nat, j: nat, n: nat, size: nat, scale: real,
                     ghost heads: nat, ghost es: seq<nat -> Score>, ghost next: nat)
    requires Exponential(exp) && size > 0 && next == n + size && qkMax != qkSum as object && qk != dst
    requires |q| == |es| == qk.Length0 == qkMax.Length == qkSum.Length == dst.Length0 && size <= qk.Length1
    requires start + n + size <= |key| == |value| && j < heads && Shaped(key, heads, dst.Length1)
             && Shaped(value, heads, dst.Length1)
    requires forall r :: 0 <= r < |q| ==> |q[r]| == dst.Length1 && es[r] == ScoresOf(scale, q[r], key, start, j)
    requires GroupAfter(exp, es, value, start, j, n, qkMax, qkSum, dst)
    modifies qk, qkMax, qkSum, dst
    ensures GroupAfter(exp, es, value, start, j, next, qkMax, qkSum, dst)
  {
    ghost var m0 := qkMax[..];
    ScoreBlock(qk, q, key, start, j, n, size, scale, heads, dst.Length1);
    forall r | 0 <= r < |es|
      ensures Unnormalised(exp, es[r], n, qkMax[r], qkSum[r])
    {
      assert Unnormalised(exp, es[r], n, m0[r], qkSum[..][r]);
    }
    UpdateRows(exp, qk, qkMax, qkSum, dst, n, size, es);
    assert RowsAfter(exp, es, next, qkMax[..], qkSum[..]) && Positive(qkMax[..], qkSum[..]);
    ghost var ms := Maxima(qkMax[..]);
    label lowered:
    AccumulateBlock(exp, qk, dst, value, start, j, n, size, heads, es, ms);
    forall r, d | 0 <= r < |es| && 0 <= d < dst.Length1
      ensures UnnormalisedSum(exp, es[r], ValuesOf(value, start, j, d), next, qkMax[r], dst[r, d])
    {
      assert Unnormalised(exp, es[r], n, m0[r], old(qkSum[..])[r]);
      BlockSum(exp, es[r], ValuesOf(value, start, j, d), n, size, m0[r], old(dst[r, d]), ms[r], old@lowered(dst[r, d]),
        dst[r, d]);
    }
  }

  lemma BlockSum(exp: real -> real, e: nat -> Score, v: nat -> real, n: nat, size: nat, m0: Score, acc0: real, m: real,
                 lowered: real, acc: real)
    requires Exponential(exp) && m0 == MaxOver(e, 0, n) && UnnormalisedSum(exp, e, v, n, m0, acc0)
    requires n > 0 ==> lowered == Mul(Scaled(exp, m0, m), acc0)
    requires acc == Accumulated(exp, e, v, m, n, size, lowered)
    ensures UnnormalisedSum(exp, e, v, n + size, Score(m), acc)
  {
    SumStep(exp, e, v, n, n + size, m0, acc0, m, ScaledSum(exp, e, v, m, n, n + size) + Mul(Scaled(exp, m0, m), acc0));
  }

  /** The scores of every query head of a group. */
  ghost function GroupScores(scale: real, q: seq<seq<real>>, key: Tensor, start: nat, j: nat): (es: seq<nat -> Score>)
    ensures |es| == |q| && forall r :: 0 <= r < |q| ==> es[r] == ScoresOf(scale, q[r], key, start, j)
  {
    seq(|q|, r requires 0 <= r < |q| => ScoresOf(scale, q[r], key, start, j))
  }

  method ResetRows(exp: real -> real, qkMax: array<Score>, qkSum: array<real>, ghost es: seq<nat -> Score>)
    requires qkMax != qkSum as object && |es| == qkMax.Length == qkSum.Length
    modifies qkMax, qkSum
    ensures RowsAfter(exp, es, 0, qkMax[..], qkSum[..]) && forall r :: 0 <= r < qkMax.Length ==> qkMax[r] == Masked
  {
    for r := 0 to qkMax.Length
      invariant forall i :: 0 <= i < r ==> qkMax[i] == Masked && qkSum[i] == 0.0
    {
      qkMax[r], qkSum[r] := Masked, 0.0;
    }
  }

  /** The query heads that share key/value head `j`, over the whole window of a sequence. */
  method DecodeHead(exp: real -> real, qk: array2<real>, qkMax: array<Score>, qkSum: array<real>, dst: array2<real>,
                    q: seq<seq<real>>, key: Tensor, value: Tensor, start: nat, keys: nat, j: nat, split: nat,
                    scale: real, ghost heads: nat, ghost es: seq<nat -> Score>)
    requires Exponential(exp) && qkMax != qkSum as object && qk != dst && 0 < split <= qk.Length1
    requires |q| == qk.Length0 == qkMax.Length == qkSum.Length == dst.Length0
    requires 0 < keys && start + keys <= |key| == |value| && j < heads && Shaped(key, heads, dst.Length1)
             && Shaped(value, heads, dst.Length1)
    requires (forall r :: 0 <= r < |q| ==> |q[r]| == dst.Length1) && es == GroupScores(scale, q, key, start, j)
    modifies qk, qkMax, qkSum, dst
    ensures GroupAfter(exp, es, value, start, j, keys, qkMax, qkSum, dst)
  {
    ResetRows(exp, qkMax, qkSum, es);
    var n := 0;
    while n < keys
      invariant 0 <= n <= keys && GroupAfter(exp, es, value, start, j, n, qkMax, qkSum, dst)
    {
      var size := if split < keys - n then split else keys - n;
      var next := n + size;
      DecodeBlock(exp, qk, qkMax, qkSum, dst, q, key, value, start, j, n, size, scale, heads, es, next);
      n := next;
    }
  }

  // ---------------------------------------------------------------------- the loop over sequences and heads

  /** The loop counters of a flattened range; the last one runs fastest. */
  datatype Index = Index(i: nat, j: nat, k: nat)

  function DataIndexInit(offset: nat, batch: nat, heads: nat, slices: nat): Index
    requires batch > 0 && heads > 0 && slices > 0
  {
    var rest := Quotient(offset, slices);
    Index(Remainder(Quotient(rest, heads), batch), Remainder(rest, heads), Remainder(offset, slices))
  }

  function DataIndexStep(x: Index, batch: nat, heads: nat, slices: nat): Index {
    var k := if x.k + 1 == slices then 0 else x.k + 1;
    var j := if k > 0 then x.j else if x.j + 1 == heads then 0 else x.j + 1;
    var i := if k > 0 || j > 0 then x.i else if x.i + 1 == batch then 0 else x.i + 1;
    Index(i, j, k)
  }

  lemma {:induction false} NextDigit(p: nat, n: nat)
    requires n > 0
    ensures Remainder(p + 1, n) == if Remainder(p, n) + 1 == n then 0 else Remainder(p, n) + 1
    ensures Quotient(p + 1, n) == Quotient(p, n) + if Remainder(p, n) + 1 == n then 1 else 0
  {
    if p >= n {
      NextDigit(p - n, n);
    }
  }

  /** Stepping the counters is computing them for the next offset. */
  lemma StepIsNext(offset: nat, batch: nat, heads: nat, slices: nat)
    requires batch > 0 && heads > 0 && slices > 0
    ensures DataIndexStep(DataIndexInit(offset, batch, heads, slices), batch, heads, slices)
            == DataIndexInit(offset + 1, batch, heads, slices)
  {
    NextDigit(offset, slices);
    NextDigit(Quotient(offset, slices), heads);
    NextDigit(Quotient(Quotient(offset, slices), heads), batch);
  }

  lemma {:induction false} SmallRemainder(p: nat, n: nat)
    requires p < n
    ensures Remainder(p, n) == p
  {
  }

  /** With one slice, an offset is a sequence and a head. */
  lemma OffsetIs(offset: nat, batch: nat, heads: nat)
    requires heads > 0 && offset < Times(batch, heads)
    ensures batch > 0
    ensures var x := DataIndexInit(offset, batch, heads, 1);
            x.k == 0 && x.i < batch && x.j < heads && offset == Times(x.i, heads) + x.j
  {
    QuotientByOne(offset);
    Digits(offset, heads);
    if Quotient(offset, heads) >= batch {
      TimesGrows(batch, Quotient(offset, heads), heads);
    }
    SmallRemainder(Quotient(offset, heads), batch);
  }

  /** The inputs of the kernel: a query per sequence, and the window of every sequence in the pool. */
  datatype Input = Input(q: Tensor, key: Tensor, value: Tensor, start: seq<nat>, lens: seq<nat>, kvHeads: nat,
    group: nat, dim: nat, scale: real)

  ghost predicate WellFormed(x: Input) {
    && x.kvHeads > 0 && |x.start| == |x.lens| == |x.q| && |x.key| == |x.value|
    && Shaped(x.q, Times(x.kvHeads, x.group), x.dim) && Shaped(x.key, x.kvHeads, x.dim)
      && Shaped(x.value, x.kvHeads, x.dim)
    && forall i :: 0 <= i < |x.q| ==> x.lens[i] > 0 && x.start[i] + x.lens[i] <= |x.key|
  }

  /** Attention of query head `h` of sequence `i` over its window, through the key/value head of its group. */
  ghost predicate IsAttention(exp: real -> real, x: Input, i: nat, j: nat, row: nat, d: nat, r: real)
    requires WellFormed(x) && i < |x.q| && j < x.kvHeads && row < x.group && d < x.dim
  {
    TimesGrows(j + 1, x.kvHeads, x.group);
    var e := ScoresOf(x.scale, x.q[i][Times(j, x.group) + row], x.key, x.start[i], j);
    Total(exp, e, 0, x.lens[i]) > 0.0 && r == Attention(exp, e, ValuesOf(x.value, x.start[i], j, d), x.lens[i])
  }

  /** The cell of the output for dimension `d` of row `row` in the group of head `j`. */
  ghost predicate CellDone(exp: real -> real, x: Input, out: array3<real>, i: nat, j: nat, row: nat, d: nat)
    requires WellFormed(x) && i < |x.q| && j < x.kvHeads && row < x.group && d < x.dim
    requires out.Length0 == |x.q| && out.Length1 == Times(x.kvHeads, x.group) && out.Length2 == x.dim
    reads out
  {
    TimesGrows(j + 1, x.kvHeads, x.group);
    IsAttention(exp, x, i, j, row, d, out[i, Times(j, x.group) + row, d])
  }

  ghost predicate HeadDone(exp: real -> real, x: Input, out: array3<real>, i: nat, j: nat)
    requires WellFormed(x) && i < |x.q| && j < x.kvHeads
    requires out.Length0 == |x.q| && out.Length1 == Times(x.kvHeads, x.group) && out.Length2 == x.dim
    reads out
  {
    forall row: nat, d: nat :: row < x.group && d < x.dim ==> CellDone(exp, x, out, i, j, row, d)
  }

  /** The accumulator of a row over its sum. */
  lemma RowIsAttention(exp: real -> real, x: Input, i: nat, j: nat, row: nat, d: nat, e: nat -> Score, m: Score,
                       sum: real, acc: real, v: real)
    requires Exponential(exp) && WellFormed(x) && i < |x.q| && j < x.kvHeads && row < x.group && d < x.dim
    requires Times(j, x.group) + x.group <= Times(x.kvHeads, x.group)
    requires e == ScoresOf(x.scale, x.q[i][Times(j, x.group) + row], x.key, x.start[i], j)
    requires m.Score? && sum > 0.0 && Unnormalised(exp, e, x.lens[i], m, sum)
    requires UnnormalisedSum(exp, e, ValuesOf(x.value, x.start[i], j, d), x.lens[i], m, acc) && v == acc * (1.0 / sum)
    ensures IsAttention(exp, x, i, j, row, d, v)
  {
    QuotientIsAttention(exp, e, ValuesOf(x.value, x.start[i], j, d), x.lens[i], m, sum, acc);
  }

  /** Writes a row of the group, divided by its sum. */
  method StoreRow(exp: real -> real, x: Input, out: array3<real>, i: nat, j: nat, row: nat, sum: real,
                  dst: array2<real>, ghost e: nat -> Score, ghost m: Score)
    requires Exponential(exp) && WellFormed(x) && i < |x.q| && j < x.kvHeads && row < x.group
    requires out.Length0 == |x.q| && out.Length1 == Times(x.kvHeads, x.group) && out.Length2 == x.dim == dst.Length1
    requires row < dst.Length0 && out != dst as object && Times(j, x.group) + x.group <= Times(x.kvHeads, x.group)
    requires e == ScoresOf(x.scale, x.q[i][Times(j, x.group) + row], x.key, x.start[i], j)
    requires m.Score? && sum > 0.0 && Unnormalised(exp, e, x.lens[i], m, sum)
    requires forall d :: 0 <= d < x.dim ==>
             UnnormalisedSum(exp, e, ValuesOf(x.value, x.start[i], j, d), x.lens[i], m, dst[row, d])
    modifies out
    ensures forall d: nat :: d < x.dim ==> CellDone(exp, x, out, i, j, row, d)
    ensures forall a, h, d :: 0 <= a < out.Length0 && 0 <= h < out.Length1 && 0 <= d < out.Length2 ==>
              (a != i || h != Times(j, x.group) + row) ==> out[a, h, d] == old(out[a, h, d])
  {
    var h0, reciprocal := Times(j, x.group) + row, 1.0 / sum;
    for d := 0 to x.dim
      invariant forall c: nat :: c < d ==> IsAttention(exp, x, i, j, row, c, out[i, h0, c])
      invariant forall a, h, c :: 0 <= a < out.Length0 && 0 <= h < out.Length1 && 0 <= c < out.Length2 ==>
                  (a != i || h != h0) ==> out[a, h, c] == old(out[a, h, c])
    {
      var v := dst[row, d] * reciprocal;
      RowIsAttention(exp, x, i, j, row, d, e, m, sum, dst[row, d], v);
      out[i, h0, d] := v;
    }
  }

  /** Writes all rows of a group. */
  method StoreHead(exp: real -> real, x: Input, out: array3<real>, i: nat, j: nat, qkMax: array<Score>,
                   qkSum: array<real>, dst: array2<real>, ghost es: seq<nat -> Score>)
    requires Exponential(exp) && WellFormed(x) && i < |x.q| && j < x.kvHeads
    requires out.Length0 == |x.q| && out.Length1 == Times(x.kvHeads, x.group) && out.Length2 == x.dim == dst.Length1
    requires |es| == x.group == qkMax.Length == qkSum.Length == dst.Length0 && out != dst as object
    requires Times(j, x.group) + x.group <= Times(x.kvHeads, x.group)
    requires forall r :: 0 <= r < |es| ==>
             es[r] == ScoresOf(x.scale, x.q[i][Times(j, x.group) + r], x.key, x.start[i], j)
    requires GroupAfter(exp, es, x.value, x.start[i], j, x.lens[i], qkMax, qkSum, dst)
    modifies out
    ensures HeadDone(exp, x, out, i, j)
    ensures forall a, h, d :: 0 <= a < out.Length0 && 0 <= h < out.Length1 && 0 <= d < out.Length2 ==>
              (a != i || h < Times(j, x.group) || Times(j, x.group) + x.group <= h) ==>
                out[a, h, d] == old(out[a, h, d])
  {
    for row := 0 to x.group
      invariant forall r: nat, d: nat :: r < row && d < x.dim ==> CellDone(exp, x, out, i, j, r, d)
      invariant forall a, h, d :: 0 <= a < out.Length0 && 0 <= h < out.Length1 && 0 <= d < out.Length2 ==>
                  (a != i || h < Times(j, x.group) || Times(j, x.group) + row <= h) ==>
                    out[a, h, d] == old(out[a, h, d])
    {
      assert Unnormalised(exp, es[row], x.lens[i], qkMax[..][row], qkSum[..][row]);
      assert qkMax[..][row].Score? && qkSum[..][row] > 0.0;
      label before:
      StoreRow(exp, x, out, i, j, row, qkSum[row], dst, es[row], qkMax[row]);
      forall r: nat, d: nat | r < row && d < x.dim
        ensures CellDone(exp, x, out, i, j, r, d)
      {
        assert old@before(CellDone(exp, x, out, i, j, r, d))
          && out[i, Times(j, x.group) + r, d] == old@before(out[i, Times(j, x.group) + r, d]);
      }
    }
  }

  ghost predicate Fitting(x: Input, out: array3<real>) {
    WellFormed(x) && out.Length0 == |x.q| && out.Length1 == Times(x.kvHeads, x.group) && out.Length2 == x.dim
  }

  /** The contents of the output. */
  ghost function Contents(out: array3<real>): (t: Tensor)
    reads out
    ensures |t| == out.Length0 && Shaped(t, out.Length1, out.Length2)
    ensures forall a, h, d :: 0 <= a < out.Length0 && 0 <= h < out.Length1 && 0 <= d < out.Length2 ==>
            t[a][h][d] == out[a, h, d]
  {
    seq(out.Length0, a requires 0 <= a < out.Length0 reads out =>
      seq(out.Length1, h requires 0 <= h < out.Length1 reads out =>
        seq(out.Length2, d requires 0 <= d < out.Length2 reads out => out[a, h, d])))
  }

  ghost predicate FittingContents(x: Input, t: Tensor) {
    WellFormed(x) && |t| == |x.q| && Shaped(t, Times(x.kvHeads, x.group), x.dim)
  }

  /** The value in row `row` of the group of head `j`. */
  function Cell(x: Input, t: Tensor, i: nat, j: nat, row: nat, d: nat): real
    requires FittingContents(x, t) && i < |x.q| && j < x.kvHeads && row < x.group && d < x.dim
  {
    TimesGrows(j + 1, x.kvHeads, x.group);
    t[i][Times(j, x.group) + row][d]
  }

  ghost predicate Attended(exp: real -> real, x: Input, t: Tensor, i: nat, j: nat)
    requires FittingContents(x, t) && i < |x.q| && j < x.kvHeads
  {
    forall row: nat, d: nat :: row < x.group && d < x.dim ==>
      IsAttention(exp, x, i, j, row, d, Cell(x, t, i, j, row, d))
  }

  ghost predicate SameHead(x: Input, t0: Tensor, t: Tensor, i: nat, j: nat)
    requires FittingContents(x, t0) && FittingContents(x, t) && i < |x.q| && j < x.kvHeads
  {
    forall row: nat, d: nat :: row < x.group && d < x.dim ==> Cell(x, t, i, j, row, d) == Cell(x, t0, i, j, row, d)
  }

  /** The heads whose offset lies in a range hold attention, all others what they held before. */
  ghost predicate RangeDone(exp: real -> real, x: Input, t0: Tensor, t: Tensor, begin: nat, end: nat)
    requires FittingContents(x, t0) && FittingContents(x, t)
  {
    forall i: nat, j: nat :: i < |x.q| && j < x.kvHeads ==>
      if begin <= Times(i, x.kvHeads) + j < end then Attended(exp, x, t, i, j) else SameHead(x, t0, t, i, j)
  }

  /** Nothing but the rows of one group differs. */
  ghost predicate OnlyHead(x: Input, t0: Tensor, t: Tensor, i: nat, j: nat)
    requires FittingContents(x, t0) && FittingContents(x, t)
  {
    forall a, h, d {:trigger t[a][h][d]} :: 0 <= a < |t| && 0 <= h < |t[a]| && 0 <= d < |t[a][h]| ==>
      (a != i || h < Times(j, x.group) || Times(j, x.group) + x.group <= h) ==> t[a][h][d] == t0[a][h][d]
  }

  lemma OtherHeadKept(x: Input, t0: Tensor, t: Tensor, i: nat, j: nat, i1: nat, j1: nat)
    requires FittingContents(x, t0) && FittingContents(x, t) && i1 < |x.q| && j1 < x.kvHeads && (i1, j1) != (i, j)
    requires OnlyHead(x, t0, t, i, j)
    ensures SameHead(x, t0, t, i1, j1)
  {
    TimesGrows(j1 + 1, if j1 < j then j else j1 + 1, x.group);
    TimesGrows(j + 1, if j < j1 then j1 else j + 1, x.group);
    TimesGrows(j1 + 1, x.kvHeads, x.group);
    forall row: nat, d: nat | row < x.group && d < x.dim
      ensures Cell(x, t, i1, j1, row, d) == Cell(x, t0, i1, j1, row, d)
    {
      var h := Times(j1, x.group) + row;
      assert t[i1][h][d] == t0[i1][h][d];
    }
  }

  /** One more head done. */
  lemma RangeGrows(exp: real -> real, x: Input, t0: Tensor, t1: Tensor, t: Tensor, begin: nat, z: nat, i: nat, j: nat)
    requires FittingContents(x, t0) && FittingContents(x, t1) && FittingContents(x, t) && i < |x.q| && j < x.kvHeads
    requires begin <= z == Times(i, x.kvHeads) + j
    requires RangeDone(exp, x, t0, t1, begin, z) && Attended(exp, x, t, i, j) && OnlyHead(x, t1, t, i, j)
    ensures RangeDone(exp, x, t0, t, begin, z + 1)
  {
    forall i1: nat, j1: nat | i1 < |x.q| && j1 < x.kvHeads
      ensures if begin <= Times(i1, x.kvHeads) + j1 < z + 1 then Attended(exp, x, t, i1, j1)
              else SameHead(x, t0, t, i1, j1)
    {
      if (i1, j1) != (i, j) {
        OtherHeadKept(x, t1, t, i, j, i1, j1);
        if Times(i1, x.kvHeads) + j1 == z {
          SameOffset(i1, j1, i, j, x.kvHeads);
          assert false;
        }
        assert if begin <= Times(i1, x.kvHeads) + j1 < z then Attended(exp, x, t1, i1, j1)
          else SameHead(x, t0, t1, i1, j1);
      }
    }
  }

  /** Two ranges one after the other. */
  lemma RangesJoin(exp: real -> real, x: Input, t0: Tensor, t1: Tensor, t: Tensor, begin: nat, mid: nat, end: nat)
    requires FittingContents(x, t0) && FittingContents(x, t1) && FittingContents(x, t) && begin <= mid <= end
    requires RangeDone(exp, x, t0, t1, begin, mid) && RangeDone(exp, x, t1, t, mid, end)
    ensures RangeDone(exp, x, t0, t, begin, end)
  {
    forall i: nat, j: nat | i < |x.q| && j < x.kvHeads
      ensures if begin <= Times(i, x.kvHeads) + j < end then Attended(exp, x, t, i, j) else SameHead(x, t0, t, i, j)
    {
      assert if begin <= Times(i, x.kvHeads) + j < mid then Attended(exp, x, t1, i, j) else SameHead(x, t0, t1, i, j);
      assert if mid <= Times(i, x.kvHeads) + j < end then Attended(exp, x, t, i, j) else SameHead(x, t1, t, i, j);
    }
  }

  lemma DoneIsAttended(exp: real -> real, x: Input, out: array3<real>, i: nat, j: nat)
    requires Fitting(x, out) && i < |x.q| && j < x.kvHeads && HeadDone(exp, x, out, i, j)
    ensures Attended(exp, x, Contents(out), i, j)
  {
    TimesGrows(j + 1, x.kvHeads, x.group);
    forall row: nat, d: nat | row < x.group && d < x.dim
      ensures IsAttention(exp, x, i, j, row, d, Cell(x, Contents(out), i, j, row, d))
    {
      assert CellDone(exp, x, out, i, j, row, d);
    }
  }

  /** The query heads of one group, from scores to output. */
  method DecodeOne(exp: real -> real, x: Input, out: array3<real>, i: nat, j: nat, split: nat,
                   qk: array2<real>, qkMax: array<Score>, qkSum: array<real>, dst: array2<real>)
    requires Exponential(exp) && Fitting(x, out) && 0 < split <= qk.Length1 && i < |x.q| && j < x.kvHeads
    requires qkMax != qkSum as object && qk != dst && out != qk as object && out != dst as object
    requires x.group == qk.Length0 == qkMax.Length == qkSum.Length == dst.Length0 && dst.Length1 == x.dim
    modifies out, qk, qkMax, qkSum, dst
    ensures Attended(exp, x, Contents(out), i, j) && OnlyHead(x, old(Contents(out)), Contents(out), i, j)
  {
    var m := Times(j, x.group);
    TimesGrows(j + 1, x.kvHeads, x.group);
    var q := x.q[i][m..m + x.group];
    ghost var es := GroupScores(x.scale, q, x.key, x.start[i], j);
    DecodeHead(exp, qk, qkMax, qkSum, dst, q, x.key, x.value, x.start[i], x.lens[i], j, split, x.scale, x.kvHeads, es);
    StoreHead(exp, x, out, i, j, qkMax, qkSum, dst, es);
    DoneIsAttended(exp, x, out, i, j);
  }

  /** One thread: the heads of a range of offsets, with buffers of its own. */
  method DecodeRange(exp: real -> real, x: Input, out: array3<real>, begin: nat, end: nat, split: nat)
    requires Exponential(exp) && Fitting(x, out) && 0 < split && begin <= end <= Times(|x.q|, x.kvHeads)
    modifies out
    ensures RangeDone(exp, x, old(Contents(out)), Contents(out), begin, end)
  {
    if begin == end {
      return;
    }
    OffsetIs(begin, |x.q|, x.kvHeads);
    var at := DataIndexInit(begin, |x.q|, x.kvHeads, 1);
    var qk, qkMax, qkSum, dst :=
      new real[x.group, split], new Score[x.group], new real[x.group], new real[x.group, x.dim];
    ghost var t0 := Contents(out);
    for z := begin to end
      invariant at == DataIndexInit(z, |x.q|, x.kvHeads, 1)
      invariant RangeDone(exp, x, t0, Contents(out), begin, z)
    {
      OffsetIs(z, |x.q|, x.kvHeads);
      ghost var t1 := Contents(out);
      DecodeOne(exp, x, out, at.i, at.j, split, qk, qkMax, qkSum, dst);
      RangeGrows(exp, x, t0, t1, Contents(out), begin, z, at.i, at.j);
      StepIsNext(z, |x.q|, x.kvHeads, 1);
      at := DataIndexStep(at, |x.q|, x.kvHeads, 1);
    }
  }

  /** Every query head of a group, written out. */
  ghost predicate HeadRight(exp: real -> real, x: Input, t: Tensor, i: nat, j: nat)
    requires FittingContents(x, t) && i < |x.q| && j < x.kvHeads
  {
    forall row: nat, d: nat :: row < x.group && d < x.dim ==> CellRight(exp, x, t, i, j, row, d)
  }

  ghost predicate CellRight(exp: real -> real, x: Input, t: Tensor, i: nat, j: nat, row: nat, d: nat)
    requires FittingContents(x, t) && i < |x.q| && j < x.kvHeads && row < x.group && d < x.dim
  {
    TimesGrows(j + 1, x.kvHeads, x.group);
    PlainlyRight(exp, x.scale, x.q[i][Times(j, x.group) + row], x.key, x.value, x.start[i], x.lens[i], j, d,
                 Cell(x, t, i, j, row, d))
  }

  lemma AttendedIsRight(exp: real -> real, x: Input, t: Tensor, i: nat, j: nat)
    requires Exponential(exp) && FittingContents(x, t) && i < |x.q| && j < x.kvHeads && Attended(exp, x, t, i, j)
    ensures HeadRight(exp, x, t, i, j)
  {
    TimesGrows(j + 1, x.kvHeads, x.group);
    forall row: nat, d: nat | row < x.group && d < x.dim
      ensures CellRight(exp, x, t, i, j, row, d)
    {
      assert IsAttention(exp, x, i, j, row, d, Cell(x, t, i, j, row, d));
      AttentionIsPlain(exp, x.scale, x.q[i][Times(j, x.group) + row], x.key, x.value, x.start[i], x.lens[i], j, d,
        Cell(x, t, i, j, row, d));
    }
  }

  /**
   The kernel: however the threads share out the heads, every query head of every sequence ends up with
   plain softmax attention over the window of its sequence; `HeadRight` says so without the scores of the kernel.
  */
  method CpuFlashDecodeGqa(exp: real -> real, x: Input, out: array3<real>, cuts: seq<nat>, split: nat)
    requires Exponential(exp) && Fitting(x, out) && 0 < split
    requires |cuts| > 0 && cuts[0] == 0 && cuts[|cuts| - 1] == Times(|x.q|, x.kvHeads)
    requires forall a, b :: 0 <= a <= b < |cuts| ==> cuts[a] <= cuts[b]
    modifies out
    ensures forall i: nat, j: nat :: i < |x.q| && j < x.kvHeads ==> Attended(exp, x, Contents(out), i, j)
    ensures forall i: nat, j: nat :: i < |x.q| && j < x.kvHeads ==> HeadRight(exp, x, Contents(out), i, j)
  {
    ghost var t0 := Contents(out);
    for a := 1 to |cuts|
      invariant RangeDone(exp, x, t0, Contents(out), 0, cuts[a - 1])
    {
      ghost var t1 := Contents(out);
      assert cuts[a] <= cuts[|cuts| - 1];
      DecodeRange(exp, x, out, cuts[a - 1], cuts[a], split);
      RangesJoin(exp, x, t0, t1, Contents(out), 0, cuts[a - 1], cuts[a]);
    }
    forall i: nat, j: nat | i < |x.q| && j < x.kvHeads
      ensures Attended(exp, x, Contents(out), i, j) && HeadRight(exp, x, Contents(out), i, j)
    {
      TimesGrows(i + 1, |x.q|, x.kvHeads);
      AttendedIsRight(exp, x, Contents(out), i, j);
    }
  }
}
