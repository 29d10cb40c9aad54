/** The layer over all ranks: each loads its part of every expert and runs the kernels; the outputs are added up. */
module ShardedMoe {
  import opened Basics
  import opened MoeAlign
  import opened FusedMoe
  import opened TensorParallel
  import opened WeightLoading

  /** The pages of a rank, one for every expert. */
  method LoadPages(x: Layer, size: nat, rank: nat) returns (pool: seq<seq<real>>)
    requires LayerShaped(x) && size > 0 && Times(rank + 1, size) <= x.inner
    ensures |pool| == |x.experts|
    ensures forall e :: 0 <= e < |x.experts| ==>
            Packed(Shard(x.experts[e], x.size, x.inner, size, rank), pool[e], x.size, size)
  {
    pool := [];
    for e := 0 to |x.experts|
      invariant |pool| == e
      invariant forall k :: 0 <= k < e ==>
                Packed(Shard(x.experts[k], x.size, x.inner, size, rank), pool[k], x.size, size)
    {
      var page := new real[Times(size, x.size) + Times(size, x.size) + Times(size, x.size)](_ => 0.0);
      LoadExpert(page, x.experts[e], [W1, W3, W2], x.size, x.inner, size, rank);
      pool := pool + [page[..]];
    }
  }

  /** What a token gets does not depend on where the pages are. */
  lemma {:induction false} PagesDoNotMatter(silu: real -> real, x: Layer, y: Layer, m: nat, c: nat, upTo: nat)
    requires LayerShaped(x) && LayerShaped(y) && m < |x.hidden| && c < x.size && upTo <= x.topk
    requires y == x.(pool := y.pool, indices := y.indices)
    ensures MixtureOf(silu, y, m, c, upTo) == MixtureOf(silu, x, m, c, upTo)
  {
    if upTo > 0 {
      PagesDoNotMatter(silu, x, y, m, c, upTo - 1);
      SameRouted(silu, x, y, m, c, upTo - 1);
      MixtureGrows(silu, x, m, c, upTo - 1, Routed(silu, x, m, upTo - 1, c));
      MixtureGrows(silu, y, m, c, upTo - 1, Routed(silu, x, m, upTo - 1, c));
    }
  }

  lemma SameRouted(silu: real -> real, x: Layer, y: Layer, m: nat, c: nat, j: nat)
    requires LayerShaped(x) && LayerShaped(y) && m < |x.hidden| && c < x.size && j < x.topk
    requires y == x.(pool := y.pool, indices := y.indices)
    ensures Routed(silu, y, m, j, c) == Routed(silu, x, m, j, c)
  {
    TimesGrows(m + 1, |x.hidden|, x.topk);
    RoutedAtPlace(silu, x, m, c, j, Times(m, x.topk) + j);
    RoutedAtPlace(silu, y, m, c, j, Times(m, x.topk) + j);
  }

  /** The layer of a rank on the pages it has loaded. */
  function LoadedLayer(x: Layer, size: nat, rank: nat, pool: seq<seq<real>>): (y: Layer)
    requires LayerShaped(x) && size > 0 && Times(rank + 1, size) <= x.inner
    ensures LayerShaped(y) && |y.hidden| == |x.hidden| && y.size == x.size && y.topk == x.topk && y.ids == x.ids
    ensures |y.experts| == |x.experts|
  {
    RankLayer(x, size, rank).(pool := pool, indices := seq(|x.experts|, (e: nat) => e))
  }

  lemma LoadedFits(x: Layer, size: nat, rank: nat, pool: seq<seq<real>>)
    requires LayerShaped(x) && size > 0 && Times(rank + 1, size) <= x.inner && |pool| == |x.experts|
    requires forall e :: 0 <= e < |x.experts| ==>
             Packed(Shard(x.experts[e], x.size, x.inner, size, rank), pool[e], x.size, size)
    ensures LayerFits(LoadedLayer(x, size, rank, pool))
  {
  }

  lemma LoadedMixture(silu: real -> real, x: Layer, size: nat, rank: nat, pool: seq<seq<real>>, m: nat, c: nat)
    requires LayerShaped(x) && size > 0 && Times(rank + 1, size) <= x.inner && m < |x.hidden| && c < x.size
    ensures MixtureOf(silu, LoadedLayer(x, size, rank, pool), m, c, x.topk)
         == RankMixture(silu, x, size, m, c, x.topk)(rank)
  {
    PagesDoNotMatter(silu, RankLayer(x, size, rank), LoadedLayer(x, size, rank, pool), m, c, x.topk);
  }

  /** What one rank computes from the pages it has loaded. */
  method RankOutput(silu: real -> real, x: Layer, size: nat, rank: nat, align: Alignment) returns (out: array2<real>)
    requires LayerShaped(x) && size > 0 && Times(rank + 1, size) <= x.inner
    requires Aligned(x.ids, |x.experts|, ConfigFor(x).blockM, align)
    ensures out.Length0 == |x.hidden| && out.Length1 == x.size
    ensures forall m: nat, c: nat :: m < |x.hidden| && c < x.size ==>
              out[m, c] == RankMixture(silu, x, size, m, c, x.topk)(rank)
  {
    var pool := LoadPages(x, size, rank);
    LoadedFits(x, size, rank, pool);
    out := StackFusedMoe(silu, LoadedLayer(x, size, rank, pool), align);
    forall m: nat, c: nat | m < |x.hidden| && c < x.size
      ensures out[m, c] == RankMixture(silu, x, size, m, c, x.topk)(rank)
    {
      LoadedMixture(silu, x, size, rank, pool, m, c);
    }
  }

  /** The outputs of the first `ranks` ranks, added up. */
  ghost predicate Reduced(silu: real -> real, x: Layer, size: nat, ranks: nat, out: array2<real>)
    requires LayerShaped(x) && size > 0 && out.Length0 == |x.hidden| && out.Length1 == x.size
    reads out
  {
    forall m: nat, c: nat :: m < |x.hidden| && c < x.size ==>
      out[m, c] == SumOf(RankMixture(silu, x, size, m, c, x.topk), ranks)
  }

  /** Adds the output of one more rank. */
  method AddRank(silu: real -> real, x: Layer, size: nat, rank: nat, part: array2<real>, out: array2<real>)
    returns (sum: array2<real>)
    requires LayerShaped(x) && size > 0 && out.Length0 == part.Length0 == |x.hidden|
             && out.Length1 == part.Length1 == x.size
    requires Reduced(silu, x, size, rank, out)
    requires forall m: nat, c: nat :: m < |x.hidden| && c < x.size ==>
               part[m, c] == RankMixture(silu, x, size, m, c, x.topk)(rank)
    ensures sum.Length0 == |x.hidden| && sum.Length1 == x.size && Reduced(silu, x, size, rank + 1, sum)
  {
    sum := new real[|x.hidden|, x.size]((m, c) => 0.0);
    for m := 0 to |x.hidden|
      invariant forall a: nat, c: nat :: a < m && c < x.size ==>
                  sum[a, c] == SumOf(RankMixture(silu, x, size, a, c, x.topk), rank + 1)
    {
      for c := 0 to x.size
        invariant forall a: nat, d: nat :: a < |x.hidden| && d < x.size && (a < m || (a == m && d < c)) ==>
                    sum[a, d] == SumOf(RankMixture(silu, x, size, a, d, x.topk), rank + 1)
      {
        sum[m, c] := out[m, c] + part[m, c];
      }
    }
  }

  /** All ranks, with an even share of the inner units each: every rank ends with the output of the whole layer. */
  method AllRanks(silu: real -> real, x: Layer, size: nat, ranks: nat, align: Alignment) returns (out: array2<real>)
    requires LayerShaped(x) && size > 0 && Times(ranks, size) == x.inner
    requires Aligned(x.ids, |x.experts|, ConfigFor(x).blockM, align)
    ensures out.Length0 == |x.hidden| && out.Length1 == x.size
    ensures forall m: nat, c: nat :: m < |x.hidden| && c < x.size ==> out[m, c] == MixtureOf(silu, x, m, c, x.topk)
  {
    out := new real[|x.hidden|, x.size]((i, j) => 0.0);
    for r := 0 to ranks
      invariant out.Length0 == |x.hidden| && out.Length1 == x.size && Reduced(silu, x, size, r, out)
    {
      TimesGrows(r + 1, ranks, size);
      var part := RankOutput(silu, x, size, r, align);
      out := AddRank(silu, x, size, r, part, out);
    }
    forall m: nat, c: nat | m < |x.hidden| && c < x.size
      ensures out[m, c] == MixtureOf(silu, x, m, c, x.topk)
    {
      MixtureParallel(silu, x, size, ranks, m, c);
    }
  }
}
