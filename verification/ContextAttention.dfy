/**
 The prefill kernel: causal attention over prompts, tile by tile. A program handles a tile of query
 rows of one head; it renormalises its accumulator after every block of keys.
*/
module ContextAttention {
  import opened Basics
  import opened Softmax
  import opened FlashAttention

  datatype Prompts = Prompts(q: Tensor, key: Tensor, value: Tensor, start: seq<nat>, lens: seq<nat>, heads: nat,
    kvHeads: nat, group: nat,
                             dim: nat, scale: real)

  ghost predicate PromptsFit(x: Prompts) {
    && x.group > 0 && x.heads == Times(x.kvHeads, x.group) && |x.start| == |x.lens| && |x.q| == |x.key| == |x.value|
    && Shaped(x.q, x.heads, x.dim) && Shaped(x.key, x.kvHeads, x.dim) && Shaped(x.value, x.kvHeads, x.dim)
    && (forall b :: 0 <= b < |x.start| ==> x.start[b] + x.lens[b] <= |x.q|)
    && (forall a, b :: 0 <= a < |x.start| && 0 <= b < |x.start| && a != b ==>
          x.start[a] + x.lens[a] <= x.start[b] || x.start[b] + x.lens[b] <= x.start[a])
  }

  /** Row `r` of prompt `b` attends to the keys up to its own position. */
  ghost predicate IsCausal(exp: real -> real, x: Prompts, b: nat, h: nat, r: nat, d: nat, y: real)
    requires PromptsFit(x) && b < |x.start| && h < x.heads && r < x.lens[b] && d < x.dim
  {
    var j := Quotient(h, x.group);
    var e := ScoresOf(x.scale, x.q[x.start[b] + r][h], x.key, x.start[b], j);
    Total(exp, e, 0, r + 1) > 0.0 && y == Attention(exp, e, ValuesOf(x.value, x.start[b], j, d), r + 1)
  }

  // ------------------------------------------------------------------------------------------ what is loaded

  function Zeros(dim: nat): (r: seq<real>)
    ensures |r| == dim && forall d :: 0 <= d < dim ==> r[d] == 0.0
  {
    seq(dim, _ => 0.0)
  }

  /** A query row, or zeros behind the end of the prompt. */
  function LoadQuery(x: Prompts, b: nat, h: nat, r: nat): (y: seq<real>)
    requires PromptsFit(x) && b < |x.start| && h < x.heads
    ensures |y| == x.dim
  {
    if r < x.lens[b] then x.q[x.start[b] + r][h] else Zeros(x.dim)
  }

  function LoadKey(x: Prompts, b: nat, j: nat, t: nat): (y: seq<real>)
    requires PromptsFit(x) && b < |x.start| && j < x.kvHeads
    ensures |y| == x.dim
  {
    if t < x.lens[b] then x.key[x.start[b] + t][j] else Zeros(x.dim)
  }

  function LoadValue(x: Prompts, b: nat, j: nat, t: nat, d: nat): real
    requires PromptsFit(x) && b < |x.start| && j < x.kvHeads && d < x.dim
  {
    if t < x.lens[b] then x.value[x.start[b] + t][j][d] else 0.0
  }

  /** The scores of a row as the kernel computes them: later keys are masked. */
  ghost function RowScores(x: Prompts, b: nat, h: nat, r: nat): nat -> Score
    requires PromptsFit(x) && b < |x.start| && h < x.heads && Quotient(h, x.group) < x.kvHeads
  {
    var q := LoadQuery(x, b, h, r);
    (t: nat) => if t <= r then Score(Mul(x.scale, Dot(q, LoadKey(x, b, Quotient(h, x.group), t)))) else Masked
  }

  ghost function LoadedValues(x: Prompts, b: nat, j: nat, d: nat): nat -> real
    requires PromptsFit(x) && b < |x.start| && j < x.kvHeads && d < x.dim
  {
    (t: nat) => LoadValue(x, b, j, t, d)
  }

  // ---------------------------------------------------------------------------------- no block is all masked

  /** The blocks of keys that the tiles of a prompt of `len` tokens read start no later than the tile's first row. */
  ghost predicate BlocksStartInTime(blockM: nat, blockN: nat, len: nat) {
    forall s: nat, i: nat :: Times(s, blockM) < len && Times(i, blockN) < Times(s + 1, blockM) ==>
      Times(i, blockN) <= Times(s, blockM)
  }

  /** What a caller can check: whole tiles in a block, or a prompt within the whole tiles of the first block. */
  predicate BlockSuits(blockM: nat, blockN: nat, len: nat)
    requires blockM > 0
  {
    blockN % blockM == 0 || len <= Times(Quotient(blockN, blockM), blockM)
  }

  lemma MultiplesInTime(blockM: nat, c: nat, len: nat)
    ensures BlocksStartInTime(blockM, Times(c, blockM), len)
  {
    forall s: nat, b: nat | Times(b, Times(c, blockM)) < Times(s + 1, blockM)
      ensures Times(b, Times(c, blockM)) <= Times(s, blockM)
    {
      TimesAssociates(b, c, blockM);
      TimesGrows(s + 1, if Times(b, c) > s then Times(b, c) else s + 1, blockM);
      TimesGrows(Times(b, c), if Times(b, c) > s then Times(b, c) else s, blockM);
    }
  }

  lemma ShortInTime(blockM: nat, blockN: nat, len: nat)
    requires blockM > 0 && len <= Times(Quotient(blockN, blockM), blockM)
    ensures BlocksStartInTime(blockM, blockN, len)
  {
    var c := Quotient(blockN, blockM);
    forall s: nat, i: nat | Times(s, blockM) < len && Times(i, blockN) < Times(s + 1, blockM)
      ensures Times(i, blockN) <= Times(s, blockM)
    {
      TimesGrows(c, if s < c then c else s, blockM);
      TimesGrows(s + 1, c, blockM);
      TimesGrows(1, if i > 0 then i else 1, blockN);
      assert Times(1, blockN) == Times(0, blockN) + blockN;
    }
  }

  lemma InTimeSuits(blockM: nat, blockN: nat, len: nat)
    requires blockM > 0 && BlocksStartInTime(blockM, blockN, len)
    ensures BlockSuits(blockM, blockN, len)
  {
    var c := Quotient(blockN, blockM);
    Digits(blockN, blockM);
    RemainderIsModulo(blockN, blockM);
    assert Times(1, blockN) == Times(0, blockN) + blockN;
    assert Times(1, blockN) < Times(c + 1, blockM);
  }

  lemma InTimeIffSuits(blockM: nat, blockN: nat, len: nat)
    requires blockM > 0
    ensures BlocksStartInTime(blockM, blockN, len) <==> BlockSuits(blockM, blockN, len)
  {
    if BlocksStartInTime(blockM, blockN, len) {
      InTimeSuits(blockM, blockN, len);
    } else if blockN % blockM == 0 {
      Digits(blockN, blockM);
      RemainderIsModulo(blockN, blockM);
      MultiplesInTime(blockM, Quotient(blockN, blockM), len);
    } else if BlockSuits(blockM, blockN, len) {
      ShortInTime(blockM, blockN, len);
    }
  }

  /** A block of keys from `n` on has an unmasked key for row `r`. */
  ghost predicate HasKey(x: Prompts, b: nat, h: nat, r: nat, n: nat, blockN: nat)
    requires PromptsFit(x) && b < |x.start| && h < x.heads && Quotient(h, x.group) < x.kvHeads
  {
    exists t: nat :: n <= t < n + blockN && RowScores(x, b, h, r)(t).Score?
  }

  /** Every row of every tile of a prompt has an unmasked key in every block that the tile reads. */
  ghost predicate KeysForAllRows(x: Prompts, b: nat, h: nat, blockM: nat, blockN: nat)
    requires PromptsFit(x) && b < |x.start| && h < x.heads && Quotient(h, x.group) < x.kvHeads
  {
    forall s: nat, i: nat, r: nat ::
      Times(s, blockM) < x.lens[b] && Times(s, blockM) <= r < Times(s + 1, blockM)
      && Times(i, blockN) < Times(s + 1, blockM) ==>
      HasKey(x, b, h, r, Times(i, blockN), blockN)
  }

  /** The first key of a block decides: a block that starts behind the row is all masked. */
  lemma FirstDecides(x: Prompts, b: nat, h: nat, r: nat, n: nat, blockN: nat)
    requires PromptsFit(x) && b < |x.start| && h < x.heads && Quotient(h, x.group) < x.kvHeads && blockN > 0
    ensures HasKey(x, b, h, r, n, blockN) <==> n <= r
  {
    if n <= r {
      assert RowScores(x, b, h, r)(n).Score?;
    }
  }

  lemma KeysInTime(x: Prompts, b: nat, h: nat, blockM: nat, blockN: nat)
    requires PromptsFit(x) && b < |x.start| && h < x.heads && Quotient(h, x.group) < x.kvHeads
    requires blockM > 0 && blockN > 0
    ensures KeysForAllRows(x, b, h, blockM, blockN) <==> BlocksStartInTime(blockM, blockN, x.lens[b])
  {
    forall i: nat, r: nat
      ensures HasKey(x, b, h, r, Times(i, blockN), blockN) <==> Times(i, blockN) <= r
    {
      FirstDecides(x, b, h, r, Times(i, blockN), blockN);
    }
    if KeysForAllRows(x, b, h, blockM, blockN) {
      forall s: nat, i: nat | Times(s, blockM) < x.lens[b] && Times(i, blockN) < Times(s + 1, blockM)
        ensures Times(i, blockN) <= Times(s, blockM)
      {
        assert HasKey(x, b, h, Times(s, blockM), Times(i, blockN), blockN);
      }
    }
  }

  /** No block is all masked for any row, for exactly these block sizes and lengths; the caller uses equal sizes. */
  lemma KeysForAllRowsIff(x: Prompts, b: nat, h: nat, blockM: nat, blockN: nat)
    requires PromptsFit(x) && b < |x.start| && h < x.heads && Quotient(h, x.group) < x.kvHeads
    requires blockM > 0 && blockN > 0
    ensures KeysForAllRows(x, b, h, blockM, blockN) <==> BlockSuits(blockM, blockN, x.lens[b])
  {
    KeysInTime(x, b, h, blockM, blockN);
    InTimeIffSuits(blockM, blockN, x.lens[b]);
  }

  /** Otherwise there is a row of the prompt for which all of the second block is masked, although its tile reads it. */
  lemma UnsuitedMasksRow(x: Prompts, b: nat, h: nat, blockM: nat, blockN: nat)
    requires PromptsFit(x) && b < |x.start| && h < x.heads && Quotient(h, x.group) < x.kvHeads
    requires blockM > 0 && !BlockSuits(blockM, blockN, x.lens[b])
    ensures var r := Times(Quotient(blockN, blockM), blockM);
            r < x.lens[b] && blockN < r + blockM && forall t: nat :: blockN <= t ==> RowScores(x, b, h, r)(t).Masked?
  {
    Digits(blockN, blockM);
    RemainderIsModulo(blockN, blockM);
  }

  // ------------------------------------------------------------------------------------------ what a row is

  lemma RowScore(x: Prompts, b: nat, h: nat, r: nat, d: nat, t: nat)
    requires PromptsFit(x) && b < |x.start| && h < x.heads && t <= r < x.lens[b] && d < x.dim
             && Quotient(h, x.group) < x.kvHeads
    ensures RowScores(x, b, h, r)(t) == ScoresOf(x.scale, x.q[x.start[b] + r][h], x.key, x.start[b],
            Quotient(h, x.group))(t)
    ensures RowScores(x, b, h, r)(t).Score?
    ensures LoadedValues(x, b, Quotient(h, x.group), d)(t) == ValuesOf(x.value, x.start[b], Quotient(h, x.group), d)(t)
  {
  }

  lemma CausalEnd(exp: real -> real, e: nat -> Score, v: nat -> real, f: nat -> Score, w: nat -> real, n: nat, hi: nat,
                  y: real)
    requires Exponential(exp) && 0 < n <= hi && Normalised(exp, e, v, hi, y)
    requires forall t :: 0 <= t < n ==> e(t) == f(t) && v(t) == w(t) && f(t).Score?
    requires forall t :: n <= t < hi ==> e(t).Masked?
    ensures Total(exp, f, 0, n) > 0.0 && y == Attention(exp, f, w, n)
  {
    MaskedEnd(exp, e, v, n, hi);
    SameSums(exp, e, f, v, w, n);
    assert f(0).Score?;
    TotalPositive(exp, f, 0, n);
    NormalisedIsAttention(exp, f, w, n, y);
  }

  /** For a row of the prompt, neither padding nor masked keys have any part in the result. */
  lemma RowIsCausal(exp: real -> real, x: Prompts, b: nat, h: nat, r: nat, d: nat, hi: nat, y: real)
    requires Exponential(exp) && PromptsFit(x) && b < |x.start| && h < x.heads && r < x.lens[b] && d < x.dim && r < hi
    requires Quotient(h, x.group) < x.kvHeads
    requires Normalised(exp, RowScores(x, b, h, r), LoadedValues(x, b, Quotient(h, x.group), d), hi, y)
    ensures IsCausal(exp, x, b, h, r, d, y)
  {
    var j := Quotient(h, x.group);
    var e, v := RowScores(x, b, h, r), LoadedValues(x, b, j, d);
    var f, w := ScoresOf(x.scale, x.q[x.start[b] + r][h], x.key, x.start[b], j), ValuesOf(x.value, x.start[b], j, d);
    forall t | 0 <= t < r + 1
      ensures e(t) == f(t) && v(t) == w(t) && f(t).Score?
    {
      RowScore(x, b, h, r, d, t);
    }
    CausalEnd(exp, e, v, f, w, r + 1, hi, y);
  }

  lemma HeadOfGroup(h: nat, kvHeads: nat, group: nat)
    requires group > 0 && h < Times(kvHeads, group)
    ensures Quotient(h, group) < kvHeads
  {
    if kvHeads <= Quotient(h, group) {
      TimesGrows(kvHeads, Quotient(h, group), group);
    }
  }

  // ------------------------------------------------------------------------------------- a tile of query rows

  method RowMax(qk: array<Score>, ghost e: nat -> Score, ghost n: nat) returns (max: Score)
    requires qk.Length > 0 && e(n).Score? && forall c :: 0 <= c < qk.Length ==> e(n + c) == qk[c]
    ensures max.Score? && max == MaxOver(e, n, n + qk.Length)
  {
    max := Masked;
    for c := 0 to qk.Length
      invariant max == MaxOver(e, n, n + c) && (c > 0 ==> max.Score?)
    {
      assert e(n + c) == qk[c] && e(n + 0) == qk[0];
      max := MaxScore(max, qk[c]);
    }
  }

  /** The exponentials of a row, lowered by its maximum in the block, and their sum. */
  method RowExp(exp: real -> real, qk: array<Score>, p: array<real>, m: real, ghost e: nat -> Score, ghost n: nat)
    returns (sum: real)
    requires p.Length == qk.Length && p != qk as object && forall c :: 0 <= c < qk.Length ==> e(n + c) == qk[c]
    modifies p
    ensures forall c :: 0 <= c < p.Length ==> p[c] == Scaled(exp, e(n + c), m)
    ensures sum == ScaledTotal(exp, e, m, n, n + p.Length)
  {
    sum := 0.0;
    for c := 0 to p.Length
      invariant forall k :: 0 <= k < c ==> p[k] == Scaled(exp, e(n + k), m)
      invariant sum == ScaledTotal(exp, e, m, n, n + c)
    {
      assert e(n + c) == qk[c];
      p[c] := Scaled(exp, qk[c], m);
      sum := sum + p[c];
    }
  }

  method ScaleRow(p: array<real>, factor: real)
    modifies p
    ensures forall c :: 0 <= c < p.Length ==> p[c] == Mul(old(p[c]), factor)
  {
    for c := 0 to p.Length
      invariant forall k :: 0 <= k < c ==> p[k] == Mul(old(p[k]), factor)
      invariant forall k :: c <= k < p.Length ==> p[k] == old(p[k])
    {
      p[c] := Mul(p[c], factor);
    }
  }

  lemma ScaledTerm(a: real, f: real, v: real, sum: real)
    ensures Mul(f, sum) + Mul(Mul(a, f), v) == Mul(f, sum + Mul(a, v))
  {
  }

  /** The product of the scaled row with the values of one dimension. */
  method RowDot(exp: real -> real, p: array<real>, x: Prompts, b: nat, j: nat, n: nat, d: nat,
                ghost e: nat -> Score, ghost m: real, ghost factor: real) returns (sum: real)
    requires PromptsFit(x) && b < |x.start| && j < x.kvHeads && d < x.dim
    requires forall c :: 0 <= c < p.Length ==> p[c] == Mul(Scaled(exp, e(n + c), m), factor)
    ensures sum == Mul(factor, ScaledSum(exp, e, LoadedValues(x, b, j, d), m, n, n + p.Length))
  {
    sum := 0.0;
    for c := 0 to p.Length
      invariant sum == Mul(factor, ScaledSum(exp, e, LoadedValues(x, b, j, d), m, n, n + c))
    {
      var v := LoadValue(x, b, j, n + c, d);
      assert v == LoadedValues(x, b, j, d)(n + c);
      ScaledTerm(Scaled(exp, e(n + c), m), factor, v, ScaledSum(exp, e, LoadedValues(x, b, j, d), m, n, n + c));
      sum := sum + Mul(p[c], v);
    }
  }

  /** Maximum, total and accumulator of a row after the first `n` keys, dimension by dimension. */
  ghost predicate RowAfter(exp: real -> real, x: Prompts, b: nat, j: nat, e: nat -> Score, n: nat, m: Score, l: real,
                           acc: seq<real>)
    requires PromptsFit(x) && b < |x.start| && j < x.kvHeads && |acc| <= x.dim
  {
    if acc == [] then Unnormalised(exp, e, n, m, l)
    else
      var d := |acc| - 1;
      RowAfter(exp, x, b, j, e, n, m, l, acc[..d]) && Normalised(exp, e, LoadedValues(x, b, j, d), n, acc[d])
  }

  lemma {:induction false} RowTotal(exp: real -> real, x: Prompts, b: nat, j: nat, e: nat -> Score, n: nat, m: Score,
                                    l: real, acc: seq<real>)
    requires PromptsFit(x) && b < |x.start| && j < x.kvHeads && |acc| <= x.dim
             && RowAfter(exp, x, b, j, e, n, m, l, acc)
    ensures Unnormalised(exp, e, n, m, l)
  {
    if acc != [] {
      RowTotal(exp, x, b, j, e, n, m, l, acc[..|acc| - 1]);
    }
  }

  lemma {:induction false} RowDim(exp: real -> real, x: Prompts, b: nat, j: nat, e: nat -> Score, n: nat, m: Score,
                                  l: real, acc: seq<real>, d: nat)
    requires PromptsFit(x) && b < |x.start| && j < x.kvHeads && d < |acc| <= x.dim
             && RowAfter(exp, x, b, j, e, n, m, l, acc)
    ensures Normalised(exp, e, LoadedValues(x, b, j, d), n, acc[d])
  {
    if d < |acc| - 1 {
      RowDim(exp, x, b, j, e, n, m, l, acc[..|acc| - 1], d);
    }
  }

  /** A block of keys for one row of the tile. */
  method UpdatePrefillRow(exp: real -> real, qk: array<Score>, p: array<real>, x: Prompts, b: nat, j: nat, n: nat,
                          m0: Score, l0: real, acc0: seq<real>, ghost e: nat -> Score)
    returns (m1: Score, l1: real, acc1: seq<real>)
    requires Exponential(exp) && PromptsFit(x) && b < |x.start| && j < x.kvHeads
    requires p.Length == qk.Length > 0 && p != qk as object && e(n).Score? && forall c :: 0 <= c < qk.Length ==>
             e(n + c) == qk[c]
    requires |acc0| == x.dim && RowAfter(exp, x, b, j, e, n, m0, l0, acc0)
    modifies p
    ensures |acc1| == x.dim && RowAfter(exp, x, b, j, e, n + qk.Length, m1, l1, acc1)
  {
    RowTotal(exp, x, b, j, e, n, m0, l0, acc0);
    var mij := RowMax(qk, e, n);
    var lij := RowExp(exp, qk, p, mij.value, e, n);
    m1 := MaxScore(m0, mij);
    var alpha, beta := Scaled(exp, m0, m1.value), Scaled(exp, mij, m1.value);
    l1 := Mul(alpha, l0) + Mul(beta, lij);
    TwoStageTotal(exp, e, n, n + qk.Length, m0, l0, mij.value, m1.value, l1);
    ScaleRow(p, beta / l1);
    acc1 := UpdateAcc(exp, p, x, b, j, n, alpha, beta, l0, l1, acc0, e, m0, mij.value, m1.value);
  }

  /** The accumulator of a row, rescaled to the new total, with the block's share added. */
  method UpdateAcc(exp: real -> real, p: array<real>, x: Prompts, b: nat, j: nat, n: nat, alpha: real, beta: real,
                   l0: real, l1: real, acc0: seq<real>, ghost e: nat -> Score, ghost m0: Score, ghost mij: real,
                   ghost m1: real) returns (acc1: seq<real>)
    requires Exponential(exp) && PromptsFit(x) && b < |x.start| && j < x.kvHeads
    requires |acc0| == x.dim && RowAfter(exp, x, b, j, e, n, m0, l0, acc0) && l1 > 0.0
             && Unnormalised(exp, e, n + p.Length, Score(m1), l1)
    requires alpha == Scaled(exp, m0, m1) && beta == Scaled(exp, Score(mij), m1)
    requires forall c :: 0 <= c < p.Length ==> p[c] == Mul(Scaled(exp, e(n + c), mij), beta / l1)
    ensures |acc1| == x.dim && RowAfter(exp, x, b, j, e, n + p.Length, Score(m1), l1, acc1)
  {
    RowTotal(exp, x, b, j, e, n, m0, l0, acc0);
    acc1 := [];
    for d := 0 to x.dim
      invariant |acc1| == d && RowAfter(exp, x, b, j, e, n + p.Length, Score(m1), l1, acc1)
    {
      RowDim(exp, x, b, j, e, n, m0, l0, acc0, d);
      var a := UpdateDim(exp, p, x, b, j, n, d, alpha, beta, l0, l1, acc0[d], e, m0, mij, m1);
      assert (acc1 + [a])[..d] == acc1;
      acc1 := acc1 + [a];
    }
  }

  method UpdateDim(exp: real -> real, p: array<real>, x: Prompts, b: nat, j: nat, n: nat, d: nat, alpha: real,
                   beta: real, l0: real, l1: real, acc0: real, ghost e: nat -> Score, ghost m0: Score, ghost mij: real,
                   ghost m1: real) returns (acc1: real)
    requires Exponential(exp) && PromptsFit(x) && b < |x.start| && j < x.kvHeads && d < x.dim
    requires Unnormalised(exp, e, n, m0, l0) && Normalised(exp, e, LoadedValues(x, b, j, d), n, acc0)
    requires l1 > 0.0 && Unnormalised(exp, e, n + p.Length, Score(m1), l1)
    requires alpha == Scaled(exp, m0, m1) && beta == Scaled(exp, Score(mij), m1)
    requires forall c :: 0 <= c < p.Length ==> p[c] == Mul(Scaled(exp, e(n + c), mij), beta / l1)
    ensures Normalised(exp, e, LoadedValues(x, b, j, d), n + p.Length, acc1)
  {
    var accScale := l0 / l1 * alpha;
    var dot := RowDot(exp, p, x, b, j, n, d, e, mij, beta / l1);
    acc1 := Mul(acc0, accScale) + dot;
    assert acc1 == Renormalised(acc0, l0, l1, alpha, beta, ScaledSum(exp, e, LoadedValues(x, b, j, d), mij, n, n
      + p.Length));
    NormalisedStep(exp, e, LoadedValues(x, b, j, d), n, n + p.Length, m0, l0, acc0, mij, m1, l1, acc1);
  }

  /** The scores of one row against a block of keys. */
  method LoadScores(x: Prompts, b: nat, h: nat, j: nat, r: nat, n: nat, qk: array<Score>)
    requires PromptsFit(x) && b < |x.start| && h < x.heads && j == Quotient(h, x.group) < x.kvHeads
    modifies qk
    ensures forall c :: 0 <= c < qk.Length ==> RowScores(x, b, h, r)(n + c) == qk[c]
  {
    var q := LoadQuery(x, b, h, r);
    for c := 0 to qk.Length
      invariant forall k :: 0 <= k < c ==> RowScores(x, b, h, r)(n + k) == qk[k]
    {
      qk[c] := if n + c <= r then Score(Mul(x.scale, Dot(q, LoadKey(x, b, j, n + c)))) else Masked;
    }
  }

  /** Maximum, total and accumulator of a row. */
  datatype RowState = RowState(m: Score, l: real, acc: seq<real>)

  ghost predicate StateAfter(exp: real -> real, x: Prompts, b: nat, h: nat, r: nat, n: nat, s: RowState)
    requires PromptsFit(x) && b < |x.start| && h < x.heads && Quotient(h, x.group) < x.kvHeads
  {
    |s.acc| == x.dim && RowAfter(exp, x, b, Quotient(h, x.group), RowScores(x, b, h, r), n, s.m, s.l, s.acc)
  }

  /** The rows of a tile after the first `n` keys. */
  ghost predicate TileAfter(exp: real -> real, x: Prompts, b: nat, h: nat, first: nat, n: nat, tile: seq<RowState>)
    requires PromptsFit(x) && b < |x.start| && h < x.heads && Quotient(h, x.group) < x.kvHeads
  {
    tile == [] || (TileAfter(exp, x, b, h, first, n, tile[..|tile| - 1])
      && StateAfter(exp, x, b, h, first + |tile| - 1, n, tile[|tile| - 1]))
  }

  lemma {:induction false} TileRow(exp: real -> real, x: Prompts, b: nat, h: nat, first: nat, n: nat,
                                   tile: seq<RowState>, row: nat, r: nat)
    requires PromptsFit(x) && b < |x.start| && h < x.heads && Quotient(h, x.group) < x.kvHeads
    requires TileAfter(exp, x, b, h, first, n, tile) && row < |tile| && r == first + row
    ensures StateAfter(exp, x, b, h, r, n, tile[row])
  {
    if row < |tile| - 1 {
      TileRow(exp, x, b, h, first, n, tile[..|tile| - 1], row, r);
    }
  }

  lemma {:induction false} RowStart(exp: real -> real, x: Prompts, b: nat, j: nat, e: nat -> Score, acc: seq<real>)
    requires PromptsFit(x) && b < |x.start| && j < x.kvHeads && |acc| <= x.dim && forall d :: 0 <= d < |acc| ==>
             acc[d] == 0.0
    ensures RowAfter(exp, x, b, j, e, 0, Masked, 0.0, acc)
  {
    if acc != [] {
      RowStart(exp, x, b, j, e, acc[..|acc| - 1]);
    }
  }

  lemma {:induction false} TileStart(exp: real -> real, x: Prompts, b: nat, h: nat, first: nat, tile: seq<RowState>)
    requires PromptsFit(x) && b < |x.start| && h < x.heads && Quotient(h, x.group) < x.kvHeads
    requires forall row :: 0 <= row < |tile| ==> tile[row] == RowState(Masked, 0.0, Zeros(x.dim))
    ensures TileAfter(exp, x, b, h, first, 0, tile)
  {
    if tile != [] {
      TileStart(exp, x, b, h, first, tile[..|tile| - 1]);
      RowStart(exp, x, b, Quotient(h, x.group), RowScores(x, b, h, first + |tile| - 1), Zeros(x.dim));
    }
  }

  lemma TileMore(exp: real -> real, x: Prompts, b: nat, h: nat, first: nat, n: nat, tile: seq<RowState>, s: RowState,
                 r: nat)
    requires PromptsFit(x) && b < |x.start| && h < x.heads && Quotient(h, x.group) < x.kvHeads
    requires TileAfter(exp, x, b, h, first, n, tile) && r == first + |tile| && StateAfter(exp, x, b, h, r, n, s)
    ensures TileAfter(exp, x, b, h, first, n, tile + [s])
  {
    assert (tile + [s])[..|tile|] == tile;
  }

  /** A block of keys for one row. */
  method UpdateState(exp: real -> real, x: Prompts, b: nat, h: nat, r: nat, n: nat, qk: array<Score>, p: array<real>,
                     s0: RowState, ghost next: nat) returns (s: RowState)
    requires Exponential(exp) && PromptsFit(x) && b < |x.start| && h < x.heads && Quotient(h, x.group) < x.kvHeads
    requires n <= r && p.Length == qk.Length > 0 && p != qk as object && next == n + qk.Length
             && StateAfter(exp, x, b, h, r, n, s0)
    modifies qk, p
    ensures StateAfter(exp, x, b, h, r, next, s)
  {
    var j := Quotient(h, x.group);
    LoadScores(x, b, h, j, r, n, qk);
    assert RowScores(x, b, h, r)(n).Score?;
    var m1, l1, acc1 := UpdatePrefillRow(exp, qk, p, x, b, j, n, s0.m, s0.l, s0.acc, RowScores(x, b, h, r));
    s := RowState(m1, l1, acc1);
  }

  /** A block of keys for all rows of the tile. */
  method UpdateTile(exp: real -> real, x: Prompts, b: nat, h: nat, first: nat, n: nat, blockN: nat,
                    tile0: seq<RowState>, ghost next: nat) returns (tile: seq<RowState>)
    requires Exponential(exp) && PromptsFit(x) && b < |x.start| && h < x.heads && Quotient(h, x.group) < x.kvHeads
    requires n <= first && blockN > 0 && next == n + blockN && TileAfter(exp, x, b, h, first, n, tile0)
    ensures |tile| == |tile0| && TileAfter(exp, x, b, h, first, next, tile)
  {
    var qk, p := new Score[blockN], new real[blockN];
    tile := [];
    while |tile| < |tile0|
      invariant |tile| <= |tile0| && TileAfter(exp, x, b, h, first, next, tile)
    {
      var r := first + |tile|;
      TileRow(exp, x, b, h, first, n, tile0, |tile|, r);
      var s := UpdateState(exp, x, b, h, r, n, qk, p, tile0[|tile|], next);
      TileMore(exp, x, b, h, first, next, tile, s, r);
      tile := tile + [s];
    }
  }

  // -------------------------------------------------------------------------------------------- the programs

  /** One row of output, dimension by dimension. */
  ghost predicate CausalRow(exp: real -> real, x: Prompts, b: nat, h: nat, r: nat, y: seq<real>)
    requires PromptsFit(x) && b < |x.start| && h < x.heads && r < x.lens[b] && |y| <= x.dim
  {
    y == [] || (CausalRow(exp, x, b, h, r, y[..|y| - 1]) && IsCausal(exp, x, b, h, r, |y| - 1, y[|y| - 1]))
  }

  lemma {:induction false} CausalAt(exp: real -> real, x: Prompts, b: nat, h: nat, r: nat, y: seq<real>, d: nat)
    requires PromptsFit(x) && b < |x.start| && h < x.heads && r < x.lens[b] && d < |y| <= x.dim
             && CausalRow(exp, x, b, h, r, y)
    ensures IsCausal(exp, x, b, h, r, d, y[d])
  {
    if d < |y| - 1 {
      CausalAt(exp, x, b, h, r, y[..|y| - 1], d);
    }
  }

  /** The output has a row for every token and head. */
  ghost predicate OutFits(x: Prompts, out: array2<seq<real>>) {
    PromptsFit(x) && out.Length0 == |x.q| && out.Length1 == x.heads
  }

  ghost predicate RowDone(exp: real -> real, x: Prompts, out: array2<seq<real>>, b: nat, h: nat, r: nat)
    requires OutFits(x, out) && b < |x.start| && h < x.heads && r < x.lens[b]
    reads out
  {
    |out[x.start[b] + r, h]| == x.dim && CausalRow(exp, x, b, h, r, out[x.start[b] + r, h])
  }

  /** A row that has seen the keys up to `hi`, its own position among them, holds causal attention. */
  lemma StateIsCausal(exp: real -> real, x: Prompts, b: nat, h: nat, r: nat, hi: nat, s: RowState, d: nat)
    requires Exponential(exp) && PromptsFit(x) && b < |x.start| && h < x.heads && r < x.lens[b] && r < hi && d < x.dim
    requires Quotient(h, x.group) < x.kvHeads && StateAfter(exp, x, b, h, r, hi, s)
    ensures IsCausal(exp, x, b, h, r, d, s.acc[d])
  {
    RowDim(exp, x, b, Quotient(h, x.group), RowScores(x, b, h, r), hi, s.m, s.l, s.acc, d);
    RowIsCausal(exp, x, b, h, r, d, hi, s.acc[d]);
  }

  /** All blocks of keys that a tile reads. */
  method RunTile(exp: real -> real, x: Prompts, b: nat, h: nat, s: nat, blockM: nat, blockN: nat)
    returns (tile: seq<RowState>, ghost hi: nat)
    requires Exponential(exp) && PromptsFit(x) && b < |x.start| && h < x.heads && Quotient(h, x.group) < x.kvHeads
    requires blockM > 0 && blockN > 0 && Times(s, blockM) < x.lens[b]
             && KeysForAllRows(x, b, h, blockM, blockN)
    ensures |tile| == blockM && Times(s + 1, blockM) <= hi && TileAfter(exp, x, b, h, Times(s, blockM), hi, tile)
  {
    var first := Times(s, blockM);
    KeysInTime(x, b, h, blockM, blockN);
    tile := seq(blockM, _ => RowState(Masked, 0.0, Zeros(x.dim)));
    TileStart(exp, x, b, h, first, tile);
    var startN := 0;
    ghost var i := 0;
    while startN < Times(s + 1, blockM)
      invariant startN == Times(i, blockN) && |tile| == blockM && TileAfter(exp, x, b, h, first, startN, tile)
      decreases Times(s + 1, blockM) - startN
    {
      assert Times(i, blockN) < Times(s + 1, blockM) && Times(i, blockN) <= Times(s, blockM);
      var next := startN + blockN;
      tile := UpdateTile(exp, x, b, h, first, startN, blockN, tile, next);
      startN, i := next, i + 1;
    }
    hi := startN;
  }

  lemma {:induction false} StateIsRow(exp: real -> real, x: Prompts, b: nat, h: nat, r: nat, hi: nat, s: RowState,
                                      n: nat)
    requires Exponential(exp) && PromptsFit(x) && b < |x.start| && h < x.heads && r < x.lens[b] && r < hi && n <= x.dim
    requires Quotient(h, x.group) < x.kvHeads && StateAfter(exp, x, b, h, r, hi, s)
    ensures CausalRow(exp, x, b, h, r, s.acc[..n])
  {
    if n > 0 {
      StateIsRow(exp, x, b, h, r, hi, s, n - 1);
      StateIsCausal(exp, x, b, h, r, hi, s, n - 1);
      assert s.acc[..n][..n - 1] == s.acc[..n - 1];
    }
  }

  lemma TileIsCausal(exp: real -> real, x: Prompts, b: nat, h: nat, first: nat, hi: nat, tile: seq<RowState>, row: nat,
                     r: nat)
    requires Exponential(exp) && PromptsFit(x) && b < |x.start| && h < x.heads && Quotient(h, x.group) < x.kvHeads
    requires TileAfter(exp, x, b, h, first, hi, tile) && row < |tile| && r == first + row < x.lens[b] && r < hi
    ensures |tile[row].acc| == x.dim && CausalRow(exp, x, b, h, r, tile[row].acc)
  {
    TileRow(exp, x, b, h, first, hi, tile, row, r);
    StateIsRow(exp, x, b, h, r, hi, tile[row], x.dim);
    assert tile[row].acc[..x.dim] == tile[row].acc;
  }

  /** One program: a tile of rows of one head. Rows behind the end of the prompt are computed but not stored. */
  method Program(exp: real -> real, x: Prompts, out: array2<seq<real>>, b: nat, h: nat, s: nat, blockM: nat,
                 blockN: nat)
    requires Exponential(exp) && OutFits(x, out) && b < |x.start| && h < x.heads
    requires blockM > 0 && blockN > 0 && BlockSuits(blockM, blockN, x.lens[b])
    modifies out
    ensures forall r: nat :: Times(s, blockM) <= r < Times(s + 1, blockM) && r < x.lens[b] ==>
            RowDone(exp, x, out, b, h, r)
    ensures forall t, k :: 0 <= t < out.Length0 && 0 <= k < out.Length1 ==>
              (k != h || t < x.start[b] + Times(s, blockM) || x.start[b] + Times(s + 1, blockM) <= t
                || x.start[b] + x.lens[b] <= t) ==>
              out[t, k] == old(out[t, k])
  {
    var first := Times(s, blockM);
    if first >= x.lens[b] {
      return;
    }
    HeadOfGroup(h, x.kvHeads, x.group);
    KeysForAllRowsIff(x, b, h, blockM, blockN);
    var tile, hi := RunTile(exp, x, b, h, s, blockM, blockN);
    for row := 0 to blockM
      invariant forall r: nat :: first <= r < first + row && r < x.lens[b] ==> RowDone(exp, x, out, b, h, r)
      invariant forall t, k :: 0 <= t < out.Length0 && 0 <= k < out.Length1 ==>
                  (k != h || t < x.start[b] + first || x.start[b] + first + row <= t
                    || x.start[b] + x.lens[b] <= t) ==> out[t, k] == old(out[t, k])
    {
      if first + row < x.lens[b] {
        var r := first + row;
        TileIsCausal(exp, x, b, h, first, hi, tile, row, r);
        label before:
        out[x.start[b] + r, h] := tile[row].acc;
        assert RowDone(exp, x, out, b, h, r);
        forall i: nat | first <= i < r
          ensures RowDone(exp, x, out, b, h, i)
        {
          assert old@before(RowDone(exp, x, out, b, h, i))
            && out[x.start[b] + i, h] == old@before(out[x.start[b] + i, h]);
        }
      }
    }
  }

  /** The rows of a head below `upTo` are done. */
  ghost predicate RowsDone(exp: real -> real, x: Prompts, out: array2<seq<real>>, b: nat, h: nat, upTo: nat)
    requires OutFits(x, out) && b < |x.start| && h < x.heads
    reads out
  {
    forall r: nat :: r < upTo && r < x.lens[b] ==> RowDone(exp, x, out, b, h, r)
  }

  /** All tiles of one head of one prompt. */
  method ProgramsOfHead(exp: real -> real, x: Prompts, out: array2<seq<real>>, b: nat, h: nat, tiles: nat, block: nat)
    requires Exponential(exp) && OutFits(x, out) && b < |x.start| && h < x.heads && block > 0
             && x.lens[b] <= Times(tiles, block)
    modifies out
    ensures RowsDone(exp, x, out, b, h, x.lens[b])
    ensures forall t, k :: 0 <= t < out.Length0 && 0 <= k < out.Length1 ==>
              (k != h || t < x.start[b] || x.start[b] + x.lens[b] <= t) ==> out[t, k] == old(out[t, k])
  {
    for s := 0 to tiles
      invariant RowsDone(exp, x, out, b, h, Times(s, block))
      invariant forall t, k :: 0 <= t < out.Length0 && 0 <= k < out.Length1 ==>
                  (k != h || t < x.start[b] || x.start[b] + x.lens[b] <= t) ==> out[t, k] == old(out[t, k])
    {
      label before:
      Program(exp, x, out, b, h, s, block, block);
      forall r: nat | r < Times(s, block) && r < x.lens[b]
        ensures RowDone(exp, x, out, b, h, r)
      {
        assert old@before(RowDone(exp, x, out, b, h, r))
          && out[x.start[b] + r, h] == old@before(out[x.start[b] + r, h]);
      }
    }
  }

  /** All heads of one prompt. */
  method ProgramsOfPrompt(exp: real -> real, x: Prompts, out: array2<seq<real>>, b: nat, tiles: nat, block: nat)
    requires Exponential(exp) && OutFits(x, out) && b < |x.start| && block > 0 && x.lens[b] <= Times(tiles, block)
    modifies out
    ensures forall h: nat :: h < x.heads ==> RowsDone(exp, x, out, b, h, x.lens[b])
    ensures forall t, k :: 0 <= t < out.Length0 && 0 <= k < out.Length1 ==>
              (t < x.start[b] || x.start[b] + x.lens[b] <= t) ==> out[t, k] == old(out[t, k])
  {
    for h := 0 to x.heads
      invariant forall k: nat :: k < h ==> RowsDone(exp, x, out, b, k, x.lens[b])
      invariant forall t, k :: 0 <= t < out.Length0 && 0 <= k < out.Length1 ==>
                  (t < x.start[b] || x.start[b] + x.lens[b] <= t) ==> out[t, k] == old(out[t, k])
    {
      label before:
      ProgramsOfHead(exp, x, out, b, h, tiles, block);
      forall k: nat, r: nat | k < h && r < x.lens[b]
        ensures RowDone(exp, x, out, b, k, r)
      {
        assert old@before(RowsDone(exp, x, out, b, k, x.lens[b])) && old@before(RowDone(exp, x, out, b, k, r));
        assert out[x.start[b] + r, k] == old@before(out[x.start[b] + r, k]);
      }
    }
  }

  ghost predicate PromptDone(exp: real -> real, x: Prompts, out: array2<seq<real>>, b: nat)
    requires OutFits(x, out) && b < |x.start|
    reads out
  {
    forall h: nat, r: nat :: h < x.heads && r < x.lens[b] ==> RowDone(exp, x, out, b, h, r)
  }

  /** A stored row, written out: attention of its query over the keys up to its own position. */
  ghost predicate RowRight(exp: real -> real, x: Prompts, b: nat, h: nat, r: nat, y: seq<real>)
    requires PromptsFit(x) && b < |x.start| && h < x.heads && r < x.lens[b]
  {
    && |y| == x.dim
    && forall d: nat :: d < x.dim ==>
         PlainlyRight(exp, x.scale, x.q[x.start[b] + r][h], x.key, x.value, x.start[b], r + 1, Quotient(h, x.group), d,
                      y[d])
  }

  ghost predicate OutRight(exp: real -> real, x: Prompts, out: array2<seq<real>>, b: nat, h: nat, r: nat)
    requires OutFits(x, out) && b < |x.start| && h < x.heads && r < x.lens[b]
    reads out
  {
    RowRight(exp, x, b, h, r, out[x.start[b] + r, h])
  }

  lemma CausalIsRight(exp: real -> real, x: Prompts, b: nat, h: nat, r: nat, y: seq<real>)
    requires Exponential(exp) && PromptsFit(x) && b < |x.start| && h < x.heads && r < x.lens[b] && |y| == x.dim
    requires CausalRow(exp, x, b, h, r, y)
    ensures RowRight(exp, x, b, h, r, y)
  {
    HeadOfGroup(h, x.kvHeads, x.group);
    forall d: nat | d < x.dim
      ensures PlainlyRight(exp, x.scale, x.q[x.start[b] + r][h], x.key, x.value, x.start[b], r + 1,
                           Quotient(h, x.group), d, y[d])
    {
      CausalAt(exp, x, b, h, r, y, d);
      AttentionIsPlain(exp, x.scale, x.q[x.start[b] + r][h], x.key, x.value, x.start[b], r + 1, Quotient(h, x.group),
        d, y[d]);
    }
  }

  /**
   The whole grid: every row of every prompt gets causal attention in every head; rows that belong to no
   prompt are untouched.
  */
  method ContextAttentionFwd(exp: real -> real, x: Prompts, out: array2<seq<real>>, maxInputLen: nat, block: nat)
    requires Exponential(exp) && OutFits(x, out) && block > 0 && forall b :: 0 <= b < |x.lens| ==>
             x.lens[b] <= maxInputLen
    modifies out
    ensures forall b: nat :: b < |x.start| ==> PromptDone(exp, x, out, b)
    ensures forall b: nat, h: nat, r: nat :: b < |x.start| && h < x.heads && r < x.lens[b] ==>
              OutRight(exp, x, out, b, h, r)
    ensures forall t, k :: 0 <= t < out.Length0 && 0 <= k < out.Length1 ==>
              (forall b :: 0 <= b < |x.start| ==> t < x.start[b] || x.start[b] + x.lens[b] <= t) ==>
                out[t, k] == old(out[t, k])
  {
    var tiles := Quotient(maxInputLen + block - 1, block);
    for b := 0 to |x.start|
      invariant forall a: nat :: a < b ==> PromptDone(exp, x, out, a)
      invariant forall t, k :: 0 <= t < out.Length0 && 0 <= k < out.Length1 ==>
                  (forall a :: 0 <= a < |x.start| ==> t < x.start[a] || x.start[a] + x.lens[a] <= t) ==>
                    out[t, k] == old(out[t, k])
    {
      label before:
      ProgramsOfPrompt(exp, x, out, b, tiles, block);
      forall a: nat, h: nat, r: nat | a < b && h < x.heads && r < x.lens[a]
        ensures RowDone(exp, x, out, a, h, r)
      {
        assert old@before(PromptDone(exp, x, out, a)) && old@before(RowDone(exp, x, out, a, h, r));
        assert out[x.start[a] + r, h] == old@before(out[x.start[a] + r, h]);
      }
      assert forall h: nat, r: nat :: h < x.heads && r < x.lens[b] ==>
        RowsDone(exp, x, out, b, h, x.lens[b]) && RowDone(exp, x, out, b, h, r);
    }
    forall b: nat, h: nat, r: nat | b < |x.start| && h < x.heads && r < x.lens[b]
      ensures OutRight(exp, x, out, b, h, r)
    {
      assert PromptDone(exp, x, out, b) && RowDone(exp, x, out, b, h, r);
      CausalIsRight(exp, x, b, h, r, out[x.start[b] + r, h]);
    }
  }
}
