/** Splitting a model over ranks: experts by inner units, attention by heads. */
module TensorParallel {
  import opened Basics
  import opened FusedMoe

  // -------------------------------------------------------------------------------- sums over the ranks

  /** The part of rank `r` of a vector. */
  function Part<T>(a: seq<T>, size: nat, r: nat): (p: seq<T>)
    requires Times(r + 1, size) <= |a|
    ensures |p| == size && forall i :: 0 <= i < size ==> p[i] == a[Times(r, size) + i]
  {
    a[Times(r, size)..Times(r + 1, size)]
  }

  lemma {:induction false} DotSplits(a: seq<real>, b: seq<real>, c: seq<real>, d: seq<real>)
    requires |a| == |c| && |b| == |d|
    ensures Dot(a + b, c + d) == Dot(a, c) + Dot(b, d)
  {
    if b == [] {
      assert a + b == a && c + d == c;
    } else {
      var n := |b| - 1;
      DotSplits(a, b[..n], c, d[..n]);
      assert (a + b)[..|a + b| - 1] == a + b[..n] && (c + d)[..|c + d| - 1] == c + d[..n];
    }
  }

  /** Every rank multiplies its part of the input with its columns of the weights. */
  ghost predicate RanksMultiply(g: nat -> real, a: seq<real>, b: seq<real>, size: nat, ranks: nat)
    requires |a| == |b|
  {
    forall r: nat :: r < ranks && Times(r + 1, size) <= |a| ==> g(r) == Dot(Part(a, size, r), Part(b, size, r))
  }

  lemma OneMorePart(a: seq<real>, b: seq<real>, n: nat, m: nat)
    requires |a| == |b| && n <= m <= |a|
    ensures Dot(a[..m], b[..m]) == Dot(a[..n], b[..n]) + Dot(a[n..m], b[n..m])
  {
    DotSplits(a[..n], a[n..m], b[..n], b[n..m]);
    assert a[..m] == a[..n] + a[n..m] && b[..m] == b[..n] + b[n..m];
  }

  /** Row parallelism: the ranks together compute the product over the inputs they cover. */
  lemma {:induction false} RowParallel(g: nat -> real, a: seq<real>, b: seq<real>, size: nat, ranks: nat)
    requires |a| == |b| && Times(ranks, size) <= |a| && RanksMultiply(g, a, b, size, ranks)
    ensures SumOf(g, ranks) == Dot(a[..Times(ranks, size)], b[..Times(ranks, size)])
  {
    if ranks > 0 {
      TimesGrows(ranks - 1, ranks, size);
      RowParallel(g, a, b, size, ranks - 1);
      OneMorePart(a, b, Times(ranks - 1, size), Times(ranks, size));
    }
  }

  // ----------------------------------------------------------------------------------------- experts

  /** The part of an expert that a rank keeps: some inner units. */
  function Shard(e: Expert, hidden: nat, inner: nat, size: nat, r: nat): (s: Expert)
    requires ExpertShaped(e, hidden, inner) && Times(r + 1, size) <= inner
    ensures ExpertShaped(s, hidden, size)
  {
    Expert(Part(e.w1, size, r), Part(e.w3, size, r), seq(hidden, c requires 0 <= c < hidden => Part(e.w2[c], size, r)))
  }

  /** A rank computes its part of the activation. */
  lemma ShardActivation(silu: real -> real, e: Expert, row: seq<real>, hidden: nat, inner: nat, size: nat, r: nat)
    requires ExpertShaped(e, hidden, inner) && Times(r + 1, size) <= inner && |row| == hidden
    ensures Activation(silu, Shard(e, hidden, inner, size, r), row, hidden, size)
            == Part(Activation(silu, e, row, hidden, inner), size, r)
  {
    forall i | 0 <= i < size
      ensures Activation(silu, Shard(e, hidden, inner, size, r), row, hidden, size)[i]
           == Part(Activation(silu, e, row, hidden, inner), size, r)[i]
    {
      ShardUnit(silu, e, row, hidden, inner, size, r, i);
    }
  }

  lemma ShardUnit(silu: real -> real, e: Expert, row: seq<real>, hidden: nat, inner: nat, size: nat, r: nat, i: nat)
    requires ExpertShaped(e, hidden, inner) && Times(r + 1, size) <= inner && |row| == hidden && i < size
    ensures Activation(silu, Shard(e, hidden, inner, size, r), row, hidden, size)[i]
         == Part(Activation(silu, e, row, hidden, inner), size, r)[i]
  {
    var s := Shard(e, hidden, inner, size, r);
    assert s.w1[i] == e.w1[Times(r, size) + i] && s.w3[i] == e.w3[Times(r, size) + i];
  }

  lemma ShardContribution(silu: real -> real, e: Expert, row: seq<real>, weight: real, c: nat, hidden: nat, inner: nat,
                          size: nat, r: nat)
    requires ExpertShaped(e, hidden, inner) && Times(r + 1, size) <= inner && |row| == hidden && c < hidden
    ensures Contribution(silu, Shard(e, hidden, inner, size, r), row, weight, c, hidden, size)
         == Mul(Dot(Part(Activation(silu, e, row, hidden, inner), size, r), Part(e.w2[c], size, r)), weight)
  {
    ShardActivation(silu, e, row, hidden, inner, size, r);
    assert Shard(e, hidden, inner, size, r).w2[c] == Part(e.w2[c], size, r);
  }

  lemma {:induction false} WeightedAllReduce(g: nat -> real, d: nat -> real, weight: real, ranks: nat)
    requires forall r: nat :: r < ranks ==> g(r) == Mul(d(r), weight)
    ensures SumOf(g, ranks) == Mul(SumOf(d, ranks), weight)
  {
    if ranks > 0 {
      WeightedAllReduce(g, d, weight, ranks - 1);
      Distribute(weight, SumOf(d, ranks - 1), d(ranks - 1));
    }
  }

  /** Rank `r` holds its shard of the expert. */
  ghost predicate RanksCompute(g: nat -> real, silu: real -> real, e: Expert, row: seq<real>, weight: real, c: nat,
                               hidden: nat, inner: nat, size: nat, ranks: nat)
    requires ExpertShaped(e, hidden, inner) && |row| == hidden && c < hidden
  {
    forall r: nat :: r < ranks && Times(r + 1, size) <= inner ==>
      g(r) == Contribution(silu, Shard(e, hidden, inner, size, r), row, weight, c, hidden, size)
  }

  /** The ranks together compute the expert on the inner units that they hold. */
  lemma RanksComputeShards(g: nat -> real, silu: real -> real, e: Expert, row: seq<real>, weight: real, c: nat,
                           hidden: nat, inner: nat, size: nat, ranks: nat)
    requires ExpertShaped(e, hidden, inner) && |row| == hidden && c < hidden && Times(ranks, size) <= inner
    requires RanksCompute(g, silu, e, row, weight, c, hidden, inner, size, ranks)
    ensures SumOf(g, ranks)
         == Mul(Dot(Activation(silu, e, row, hidden, inner)[..Times(ranks, size)], e.w2[c][..Times(ranks, size)]),
           weight)
  {
    forall r: nat | r < ranks
      ensures g(r) == Mul(PartDots(Activation(silu, e, row, hidden, inner), e.w2[c], size)(r), weight)
    {
      RankIsPart(g, silu, e, row, weight, c, hidden, inner, size, ranks, r);
    }
    WeightedRowParallel(g, Activation(silu, e, row, hidden, inner), e.w2[c], weight, size, ranks);
  }

  /** What the ranks multiply. */
  ghost function PartDots(a: seq<real>, b: seq<real>, size: nat): nat -> real
    requires |a| == |b|
  {
    (r: nat) => if Times(r + 1, size) <= |a| then Dot(Part(a, size, r), Part(b, size, r)) else 0.0
  }

  lemma WeightedRowParallel(g: nat -> real, a: seq<real>, b: seq<real>, weight: real, size: nat, ranks: nat)
    requires |a| == |b| && Times(ranks, size) <= |a| && forall r: nat :: r < ranks ==>
             g(r) == Mul(PartDots(a, b, size)(r), weight)
    ensures SumOf(g, ranks) == Mul(Dot(a[..Times(ranks, size)], b[..Times(ranks, size)]), weight)
  {
    WeightedAllReduce(g, PartDots(a, b, size), weight, ranks);
    RowParallel(PartDots(a, b, size), a, b, size, ranks);
  }

  lemma RankIsPart(g: nat -> real, silu: real -> real, e: Expert, row: seq<real>, weight: real, c: nat, hidden: nat,
                   inner: nat, size: nat, ranks: nat, r: nat)
    requires ExpertShaped(e, hidden, inner) && |row| == hidden && c < hidden && Times(ranks, size) <= inner && r < ranks
    requires RanksCompute(g, silu, e, row, weight, c, hidden, inner, size, ranks)
    ensures g(r) == Mul(PartDots(Activation(silu, e, row, hidden, inner), e.w2[c], size)(r), weight)
  {
    TimesGrows(r + 1, ranks, size);
    ShardContribution(silu, e, row, weight, c, hidden, inner, size, r);
  }

  /** If the ranks hold all inner units, they compute the expert. */
  lemma RanksComputeExpert(g: nat -> real, silu: real -> real, e: Expert, row: seq<real>, weight: real, c: nat,
                           hidden: nat, inner: nat, size: nat, ranks: nat)
    requires ExpertShaped(e, hidden, inner) && |row| == hidden && c < hidden && Times(ranks, size) == inner
    requires RanksCompute(g, silu, e, row, weight, c, hidden, inner, size, ranks)
    ensures SumOf(g, ranks) == Contribution(silu, e, row, weight, c, hidden, inner)
  {
    RanksComputeShards(g, silu, e, row, weight, c, hidden, inner, size, ranks);
    assert Activation(silu, e, row, hidden, inner)[..inner] == Activation(silu, e, row, hidden, inner)
      && e.w2[c][..inner] == e.w2[c];
  }

  // ------------------------------------------------------------------------------------- the whole layer

  /** The layer as a rank sees it. */
  function RankLayer(x: Layer, size: nat, r: nat): (y: Layer)
    requires LayerShaped(x) && size > 0 && Times(r + 1, size) <= x.inner
    ensures LayerShaped(y) && y.hidden == x.hidden && y.size == x.size && y.topk == x.topk
  {
    x.(experts := seq(|x.experts|, e requires 0 <= e < |x.experts| => Shard(x.experts[e], x.size, x.inner, size, r)),
      inner := size)
  }

  lemma {:induction false} AllReduceOfSum(k: nat -> real, g: nat -> real, h: nat -> real, ranks: nat)
    requires forall r: nat :: r < ranks ==> k(r) == g(r) + h(r)
    ensures SumOf(k, ranks) == SumOf(g, ranks) + SumOf(h, ranks)
  {
    if ranks > 0 {
      AllReduceOfSum(k, g, h, ranks - 1);
    }
  }

  /** What rank `r` computes, as a function of the rank. */
  ghost function RankMixture(silu: real -> real, x: Layer, size: nat, m: nat, c: nat, upTo: nat): nat -> real
    requires LayerShaped(x) && size > 0 && m < |x.hidden| && c < x.size && upTo <= x.topk
  {
    (r: nat) => if Times(r + 1, size) <= x.inner then MixtureOf(silu, RankLayer(x, size, r), m, c, upTo) else 0.0
  }

  ghost function RankRouted(silu: real -> real, x: Layer, size: nat, m: nat, c: nat, j: nat): nat -> real
    requires LayerShaped(x) && size > 0 && m < |x.hidden| && c < x.size && j < x.topk
  {
    (r: nat) => if Times(r + 1, size) <= x.inner then Routed(silu, RankLayer(x, size, r), m, j, c) else 0.0
  }

  lemma RoutedParallel(silu: real -> real, x: Layer, size: nat, ranks: nat, m: nat, c: nat, j: nat)
    requires LayerShaped(x) && size > 0 && Times(ranks, size) == x.inner && m < |x.hidden| && c < x.size && j < x.topk
    ensures SumOf(RankRouted(silu, x, size, m, c, j), ranks) == Routed(silu, x, m, j, c)
  {
    TimesGrows(m + 1, |x.hidden|, x.topk);
    var t := Times(m, x.topk) + j;
    RanksComputeRouted(silu, x, size, ranks, m, c, j, t);
    RoutedAtPlace(silu, x, m, c, j, t);
    RanksComputeExpert(RankRouted(silu, x, size, m, c, j), silu, x.experts[x.ids[t]], x.hidden[m], x.weights[t], c,
      x.size, x.inner, size, ranks);
  }

  lemma RoutedAtPlace(silu: real -> real, x: Layer, m: nat, c: nat, j: nat, t: nat)
    requires LayerShaped(x) && m < |x.hidden| && c < x.size && j < x.topk && t == Times(m, x.topk) + j < |x.ids|
    ensures Routed(silu, x, m, j, c)
         == Contribution(silu, x.experts[x.ids[t]], x.hidden[m], x.weights[t], c, x.size, x.inner)
  {
  }

  lemma RanksComputeRouted(silu: real -> real, x: Layer, size: nat, ranks: nat, m: nat, c: nat, j: nat, t: nat)
    requires LayerShaped(x) && size > 0 && m < |x.hidden| && c < x.size && j < x.topk
             && t == Times(m, x.topk) + j < |x.ids|
    ensures RanksCompute(RankRouted(silu, x, size, m, c, j), silu, x.experts[x.ids[t]], x.hidden[m], x.weights[t], c,
            x.size, x.inner, size, ranks)
  {
    forall r: nat | r < ranks && Times(r + 1, size) <= x.inner
      ensures RankRouted(silu, x, size, m, c, j)(r)
           == Contribution(silu, Shard(x.experts[x.ids[t]], x.size, x.inner, size, r), x.hidden[m], x.weights[t], c,
             x.size, size)
    {
      RoutedOfRank(silu, x, size, m, c, j, r, t);
    }
  }

  lemma RoutedOfRank(silu: real -> real, x: Layer, size: nat, m: nat, c: nat, j: nat, r: nat, t: nat)
    requires LayerShaped(x) && size > 0 && m < |x.hidden| && c < x.size && j < x.topk && Times(r + 1, size) <= x.inner
    requires t == Times(m, x.topk) + j < |x.ids|
    ensures RankRouted(silu, x, size, m, c, j)(r)
         == Contribution(silu, Shard(x.experts[x.ids[t]], x.size, x.inner, size, r), x.hidden[m], x.weights[t], c,
           x.size, size)
  {
    assert RankLayer(x, size, r).experts[x.ids[t]] == Shard(x.experts[x.ids[t]], x.size, x.inner, size, r);
  }

  lemma {:induction false} MixtureUpTo(silu: real -> real, x: Layer, size: nat, ranks: nat, m: nat, c: nat, upTo: nat)
    requires LayerShaped(x) && size > 0 && Times(ranks, size) == x.inner && m < |x.hidden| && c < x.size
             && upTo <= x.topk
    ensures SumOf(RankMixture(silu, x, size, m, c, upTo), ranks) == MixtureOf(silu, x, m, c, upTo)
  {
    if upTo == 0 {
      NoExperts(silu, x, size, ranks, m, c);
    } else {
      MixtureUpTo(silu, x, size, ranks, m, c, upTo - 1);
      RoutedParallel(silu, x, size, ranks, m, c, upTo - 1);
      MixtureGrows(silu, x, m, c, upTo - 1, Routed(silu, x, m, upTo - 1, c));
      OneMoreExpert(silu, x, size, ranks, m, c, upTo, MixtureOf(silu, x, m, c, upTo - 1),
                    Routed(silu, x, m, upTo - 1, c), MixtureOf(silu, x, m, c, upTo));
    }
  }

  lemma NoExperts(silu: real -> real, x: Layer, size: nat, ranks: nat, m: nat, c: nat)
    requires LayerShaped(x) && size > 0 && m < |x.hidden| && c < x.size
    ensures SumOf(RankMixture(silu, x, size, m, c, 0), ranks) == 0.0 == MixtureOf(silu, x, m, c, 0)
  {
    AllReduceOfNothing(RankMixture(silu, x, size, m, c, 0), ranks);
  }

  lemma OneMoreExpert(silu: real -> real, x: Layer, size: nat, ranks: nat, m: nat, c: nat, upTo: nat, before: real,
                      part: real, after: real)
    requires LayerShaped(x) && size > 0 && m < |x.hidden| && c < x.size && 0 < upTo <= x.topk
    requires SumOf(RankMixture(silu, x, size, m, c, upTo - 1), ranks) == before
    requires SumOf(RankRouted(silu, x, size, m, c, upTo - 1), ranks) == part && after == before + part
    ensures SumOf(RankMixture(silu, x, size, m, c, upTo), ranks) == after
  {
    AllReduceOfSum(RankMixture(silu, x, size, m, c, upTo), RankMixture(silu, x, size, m, c, upTo - 1),
                   RankRouted(silu, x, size, m, c, upTo - 1), ranks);
  }

  lemma {:induction false} AllReduceOfNothing(g: nat -> real, ranks: nat)
    requires forall r: nat :: r < ranks ==> g(r) == 0.0
    ensures SumOf(g, ranks) == 0.0
  {
    if ranks > 0 {
      AllReduceOfNothing(g, ranks - 1);
    }
  }

  /** Summing the outputs of the ranks gives the layer of the whole model. */
  lemma MixtureParallel(silu: real -> real, x: Layer, size: nat, ranks: nat, m: nat, c: nat)
    requires LayerShaped(x) && size > 0 && Times(ranks, size) == x.inner && m < |x.hidden| && c < x.size
    ensures SumOf(RankMixture(silu, x, size, m, c, x.topk), ranks) == MixtureOf(silu, x, m, c, x.topk)
  {
    MixtureUpTo(silu, x, size, ranks, m, c, x.topk);
  }

  // -------------------------------------------------------------- an inner size that is no multiple of the ranks

  lemma {:induction false} DotWithZeros(a: seq<real>, b: seq<real>)
    requires |a| == |b| && forall i :: 0 <= i < |b| ==> b[i] == 0.0
    ensures Dot(a, b) == 0.0
  {
    if a != [] {
      DotWithZeros(a[..|a| - 1], b[..|a| - 1]);
    }
  }

  /** A vector with a single one at the end. */
  function LastOne(n: nat): (r: seq<real>)
    requires n > 0
    ensures |r| == n && r[n - 1] == 1.0 && forall i :: 0 <= i < n - 1 ==> r[i] == 0.0
  {
    seq(n - 1, _ => 0.0) + [1.0]
  }

  lemma DotWithLastOne(a: seq<real>)
    requires a != []
    ensures Dot(a, LastOne(|a|)) == a[|a| - 1]
  {
    DotWithZeros(a[..|a| - 1], LastOne(|a|)[..|a| - 1]);
  }

  function ConstantOne(x: real): real {
    1.0
  }

  /** An expert whose only output comes from its last inner unit. */
  function LastUnitExpert(hidden: nat, inner: nat): (e: Expert)
    requires hidden > 0 && inner > 0
    ensures ExpertShaped(e, hidden, inner)
  {
    Expert(seq(inner, _ => LastOne(hidden)), seq(inner, _ => LastOne(hidden)), seq(hidden, _ => LastOne(inner)))
  }

  lemma LastUnit(hidden: nat, inner: nat)
    requires hidden > 0 && inner > 0
    ensures Contribution(ConstantOne, LastUnitExpert(hidden, inner), LastOne(hidden), 1.0, 0, hidden, inner) == 1.0
  {
    LastActivation(hidden, inner);
    DotWithLastOne(Activation(ConstantOne, LastUnitExpert(hidden, inner), LastOne(hidden), hidden, inner));
  }

  lemma LastActivation(hidden: nat, inner: nat)
    requires hidden > 0 && inner > 0
    ensures Activation(ConstantOne, LastUnitExpert(hidden, inner), LastOne(hidden), hidden, inner)[inner - 1] == 1.0
  {
    var row, e := LastOne(hidden), LastUnitExpert(hidden, inner);
    assert e.w3[inner - 1] == row;
    DotWithLastOne(row);
    assert Dot(row, e.w3[inner - 1]) == 1.0 == ConstantOne(Dot(row, e.w1[inner - 1]));
    assert Mul(1.0, 1.0) == 1.0;
  }

  lemma LastUnitLost(g: nat -> real, hidden: nat, inner: nat, size: nat, ranks: nat)
    requires hidden > 0 && Times(ranks, size) < inner
    requires RanksCompute(g, ConstantOne, LastUnitExpert(hidden, inner), LastOne(hidden), 1.0, 0, hidden, inner, size,
             ranks)
    ensures SumOf(g, ranks) == 0.0
  {
    var e := LastUnitExpert(hidden, inner);
    RanksComputeShards(g, ConstantOne, e, LastOne(hidden), 1.0, 0, hidden, inner, size, ranks);
    DotWithZeros(Activation(ConstantOne, e, LastOne(hidden), hidden, inner)[..Times(ranks, size)],
      e.w2[0][..Times(ranks, size)]);
  }

  /** The ranks compute every expert exactly, whatever the weights, the input and the activation. */
  ghost predicate Lossless(hidden: nat, inner: nat, size: nat, ranks: nat) {
    forall g: nat -> real, silu: real -> real, e: Expert, row: seq<real>, weight: real, c: nat ::
      (ExpertShaped(e, hidden, inner) && |row| == hidden && c < hidden
        && RanksCompute(g, silu, e, row, weight, c, hidden, inner, size, ranks)) ==>
        SumOf(g, ranks) == Contribution(silu, e, row, weight, c, hidden, inner)
  }

  lemma EvenSharesAreLossless(hidden: nat, inner: nat, size: nat, ranks: nat)
    requires Times(ranks, size) == inner
    ensures Lossless(hidden, inner, size, ranks)
  {
    forall g: nat -> real, silu: real -> real, e: Expert, row: seq<real>, weight: real, c: nat |
      ExpertShaped(e, hidden, inner) && |row| == hidden && c < hidden
        && RanksCompute(g, silu, e, row, weight, c, hidden, inner, size, ranks)
      ensures SumOf(g, ranks) == Contribution(silu, e, row, weight, c, hidden, inner)
    {
      RanksComputeExpert(g, silu, e, row, weight, c, hidden, inner, size, ranks);
    }
  }

  ghost function ShardOutputs(silu: real -> real, e: Expert, row: seq<real>, weight: real, c: nat, hidden: nat,
                              inner: nat, size: nat): nat -> real
    requires ExpertShaped(e, hidden, inner) && |row| == hidden && c < hidden
  {
    (r: nat) => if Times(r + 1, size) <= inner then
      Contribution(silu, Shard(e, hidden, inner, size, r), row, weight, c, hidden, size) else 0.0
  }

  lemma Refutes(g: nat -> real, silu: real -> real, e: Expert, row: seq<real>, weight: real, c: nat, hidden: nat,
                inner: nat, size: nat, ranks: nat)
    requires ExpertShaped(e, hidden, inner) && |row| == hidden && c < hidden
             && RanksCompute(g, silu, e, row, weight, c, hidden, inner, size, ranks)
    requires SumOf(g, ranks) != Contribution(silu, e, row, weight, c, hidden, inner)
    ensures !Lossless(hidden, inner, size, ranks)
  {
  }

  lemma UnevenSharesAreNot(hidden: nat, inner: nat, size: nat, ranks: nat)
    requires hidden > 0 && Times(ranks, size) < inner
    ensures !Lossless(hidden, inner, size, ranks)
  {
    var e, row := LastUnitExpert(hidden, inner), LastOne(hidden);
    var g := ShardOutputs(ConstantOne, e, row, 1.0, 0, hidden, inner, size);
    LastUnit(hidden, inner);
    LastUnitLost(g, hidden, inner, size, ranks);
    Refutes(g, ConstantOne, e, row, 1.0, 0, hidden, inner, size, ranks);
  }

  /** Every rank takes an equal share, rounded down; that loses nothing exactly if the shares come out even. */
  lemma LosslessIffDivisible(hidden: nat, inner: nat, ranks: nat)
    requires hidden > 0 && ranks > 0
    ensures Lossless(hidden, inner, inner / ranks, ranks) <==> inner % ranks == 0
  {
    var size := Quotient(inner, ranks);
    QuotientIsDivision(inner, ranks);
    RemainderIsModulo(inner, ranks);
    Digits(inner, ranks);
    TimesCommute(size, ranks);
    if Times(ranks, size) == inner {
      EvenSharesAreLossless(hidden, inner, size, ranks);
    } else {
      UnevenSharesAreNot(hidden, inner, size, ranks);
    }
  }
}
