/**
 Query, key and value projections over ranks: query heads are divided, key/value heads are divided or,
 when there are more ranks than heads, replicated.
*/
module QkvParallel {
  import opened Basics

  datatype Qkv = Qkv(heads: nat, kvHeads: nat, ranks: nat, headSize: nat)

  function NumHeads(x: Qkv): nat
    requires x.ranks > 0
  {
    Quotient(x.heads, x.ranks)
  }

  function NumKvHeads(x: Qkv): nat
    requires x.ranks > 0
  {
    if x.ranks >= x.kvHeads then 1 else Quotient(x.kvHeads, x.ranks)
  }

  function Replicas(x: Qkv): nat
    requires x.kvHeads > 0
  {
    if x.ranks >= x.kvHeads then Quotient(x.ranks, x.kvHeads) else 1
  }

  /** Query heads per key/value head in the whole model. */
  function Group(x: Qkv): nat
    requires x.kvHeads > 0
  {
    Quotient(x.heads, x.kvHeads)
  }

  /**
   The divisions that are checked when the layer is built and, what is not checked there, whole groups of query heads
   for every key/value head.
  */
  predicate Divisible(x: Qkv) {
    && x.ranks > 0 && x.kvHeads > 0 && x.heads == Times(x.ranks, NumHeads(x)) && x.heads == Times(x.kvHeads, Group(x))
      && x.heads > 0
    && if x.ranks >= x.kvHeads then x.ranks == Times(x.kvHeads, Replicas(x))
      else x.kvHeads == Times(x.ranks, NumKvHeads(x))
  }

  lemma DividesEvenly(p: nat, n: nat)
    requires n > 0
    ensures p == Times(n, Quotient(p, n)) <==> p % n == 0
    ensures Quotient(p, n) == p / n
  {
    Digits(p, n);
    RemainderIsModulo(p, n);
    QuotientIsDivision(p, n);
    TimesCommute(n, Quotient(p, n));
  }

  /** The same in remainders and quotients, and what the shares of a rank then are. */
  lemma DivisibleIs(x: Qkv)
    ensures Divisible(x) <==>
            && x.heads > 0 && x.kvHeads > 0 && x.ranks > 0 && x.heads % x.ranks == 0 && x.heads % x.kvHeads == 0
            && (x.ranks >= x.kvHeads ==> x.ranks % x.kvHeads == 0)
            && (x.ranks < x.kvHeads ==> x.kvHeads % x.ranks == 0)
    ensures Divisible(x) ==>
            && NumHeads(x) == x.heads / x.ranks && Group(x) == x.heads / x.kvHeads
            && NumKvHeads(x) == (if x.ranks >= x.kvHeads then 1 else x.kvHeads / x.ranks)
            && Replicas(x) == (if x.ranks >= x.kvHeads then x.ranks / x.kvHeads else 1)
  {
    if x.ranks > 0 && x.kvHeads > 0 {
      DividesEvenly(x.heads, x.ranks);
      DividesEvenly(x.heads, x.kvHeads);
      DividesEvenly(x.ranks, x.kvHeads);
      DividesEvenly(x.kvHeads, x.ranks);
    }
  }

  lemma Cancel(a: nat, b: nat, c: nat)
    requires a > 0 && Times(a, b) == Times(a, c)
    ensures b == c
  {
    TimesCommute(a, b);
    TimesCommute(a, c);
    SameOffset(b, 0, c, 0, a);
  }

  lemma {:induction false} ZeroTimes(a: nat)
    ensures Times(a, 0) == 0
  {
    if a > 0 {
      ZeroTimes(a - 1);
    }
  }

  lemma QuotientOf(a: nat, b: nat, n: nat)
    requires n > 0 && a == Times(b, n)
    ensures Quotient(a, n) == b
  {
    Digits(a, n);
    SameOffset(Quotient(a, n), Remainder(a, n), b, 0, n);
  }

  lemma SmallQuotient(p: nat, n: nat)
    requires p < n
    ensures Quotient(p, n) == 0
  {
  }

  /** The key/value head of the whole model that local key/value head `k` of a rank is a copy of. */
  function GlobalKv(x: Qkv, rank: nat, k: nat): nat
    requires Divisible(x)
  {
    ReplicasPositive(x);
    Times(Quotient(rank, Replicas(x)), NumKvHeads(x)) + k
  }

  lemma ReplicasPositive(x: Qkv)
    requires Divisible(x)
    ensures Replicas(x) > 0 && NumHeads(x) > 0 && NumKvHeads(x) > 0 && Group(x) > 0
  {
    ZeroTimes(x.ranks);
    ZeroTimes(x.kvHeads);
  }

  /** Query heads per key/value head on a rank. */
  function LocalGroup(x: Qkv): nat
    requires Divisible(x)
  {
    ReplicasPositive(x);
    Quotient(NumHeads(x), NumKvHeads(x))
  }

  /** Divided heads: a rank has whole groups. */
  lemma DividedGroups(x: Qkv)
    requires Divisible(x) && x.ranks < x.kvHeads
    ensures LocalGroup(x) == Group(x) && NumHeads(x) == Times(NumKvHeads(x), Group(x))
  {
    ReplicasPositive(x);
    TimesAssociates(x.ranks, NumKvHeads(x), Group(x));
    Cancel(x.ranks, NumHeads(x), Times(NumKvHeads(x), Group(x)));
    TimesCommute(NumKvHeads(x), Group(x));
    QuotientOf(NumHeads(x), Group(x), NumKvHeads(x));
  }

  /** Replicated heads: a group spreads over as many ranks as there are replicas. */
  lemma ReplicatedGroups(x: Qkv)
    requires Divisible(x) && x.ranks >= x.kvHeads
    ensures Group(x) == Times(Replicas(x), NumHeads(x)) && LocalGroup(x) == NumHeads(x)
  {
    ReplicasPositive(x);
    TimesAssociates(x.kvHeads, Replicas(x), NumHeads(x));
    Cancel(x.kvHeads, Group(x), Times(Replicas(x), NumHeads(x)));
    QuotientByOne(NumHeads(x));
  }

  /**
   Every query head meets the key/value head that it has in the whole model: local head `h` of a rank is
   head `rank * NumHeads + h`, and the head it attends to locally is the copy of the head of its group.
  */
  lemma HeadsPair(x: Qkv, rank: nat, h: nat)
    requires Divisible(x) && rank < x.ranks && h < NumHeads(x)
    ensures LocalGroup(x) > 0 && Quotient(h, LocalGroup(x)) < NumKvHeads(x) && Group(x) > 0
    ensures GlobalKv(x, rank, Quotient(h, LocalGroup(x)))
            == Quotient(Times(rank, NumHeads(x)) + h, Group(x)) < x.kvHeads
  {
    ReplicasPositive(x);
    TimesGrows(rank + 1, x.ranks, NumHeads(x));
    QuotientBelow(Times(rank, NumHeads(x)) + h, x.kvHeads, Group(x));
    if x.ranks < x.kvHeads {
      DividedPair(x, rank, h);
    } else {
      ReplicatedPair(x, rank, h);
    }
  }

  lemma DividedPair(x: Qkv, rank: nat, h: nat)
    requires Divisible(x) && x.ranks < x.kvHeads && h < NumHeads(x)
    ensures LocalGroup(x) > 0 && Quotient(h, LocalGroup(x)) < NumKvHeads(x) && Group(x) > 0
    ensures GlobalKv(x, rank, Quotient(h, LocalGroup(x))) == Quotient(Times(rank, NumHeads(x)) + h, Group(x))
  {
    ReplicasPositive(x);
    DividedGroups(x);
    QuotientByOne(rank);
    TimesAssociates(rank, NumKvHeads(x), Group(x));
    QuotientShifts(Times(rank, NumKvHeads(x)), h, Group(x));
    QuotientBelow(h, NumKvHeads(x), Group(x));
    assert Times(rank, NumHeads(x)) == Times(Times(rank, NumKvHeads(x)), Group(x));
    assert GlobalKv(x, rank, Quotient(h, Group(x))) == Times(rank, NumKvHeads(x)) + Quotient(h, Group(x));
  }

  lemma ReplicatedPair(x: Qkv, rank: nat, h: nat)
    requires Divisible(x) && x.ranks >= x.kvHeads && rank < x.ranks && h < NumHeads(x)
    ensures LocalGroup(x) > 0 && Quotient(h, LocalGroup(x)) < NumKvHeads(x) && Group(x) > 0
    ensures GlobalKv(x, rank, Quotient(h, LocalGroup(x))) == Quotient(Times(rank, NumHeads(x)) + h, Group(x))
  {
    ReplicasPositive(x);
    ReplicatedGroups(x);
    SmallQuotient(h, NumHeads(x));
    OneEach(Quotient(rank, Replicas(x)));
    RankInGroup(x, rank, h);
  }

  lemma {:induction false} OneEach(a: nat)
    ensures Times(a, 1) == a
  {
    if a > 0 {
      OneEach(a - 1);
    }
  }

  lemma RankInGroup(x: Qkv, rank: nat, h: nat)
    requires Divisible(x) && x.ranks >= x.kvHeads && rank < x.ranks && h < NumHeads(x)
    ensures Replicas(x) > 0 && Group(x) > 0
            && Quotient(Times(rank, NumHeads(x)) + h, Group(x)) == Quotient(rank, Replicas(x))
  {
    ReplicasPositive(x);
    ReplicatedGroups(x);
    var q, s := Quotient(rank, Replicas(x)), Remainder(rank, Replicas(x));
    Digits(rank, Replicas(x));
    TimesSum(Times(q, Replicas(x)), s, NumHeads(x));
    TimesAssociates(q, Replicas(x), NumHeads(x));
    TimesGrows(s + 1, Replicas(x), NumHeads(x));
    QuotientShifts(q, Times(s, NumHeads(x)) + h, Group(x));
    SmallQuotient(Times(s, NumHeads(x)) + h, Group(x));
  }

  // ------------------------------------------------------------------------------------ loading the weights

  datatype ShardId = Q | K | V

  /** The first row of a rank's parameter that belongs to a projection, and the number of its rows. */
  function ShardOffset(x: Qkv, id: ShardId): nat
    requires Divisible(x)
  {
    match id
    case Q => 0
    case K => Times(NumHeads(x), x.headSize)
    case V => Times(NumHeads(x) + NumKvHeads(x), x.headSize)
  }

  function ShardSize(x: Qkv, id: ShardId): nat
    requires Divisible(x)
  {
    Times(if id == Q then NumHeads(x) else NumKvHeads(x), x.headSize)
  }

  /** Which shard of the whole projection a rank loads. */
  function ShardOf(x: Qkv, id: ShardId, rank: nat): nat
    requires Divisible(x)
  {
    ReplicasPositive(x);
    if id == Q then rank else Quotient(rank, Replicas(x))
  }

  function TotalHeads(x: Qkv, id: ShardId): nat {
    if id == Q then x.heads else x.kvHeads
  }

  lemma ShardFits(x: Qkv, id: ShardId, rank: nat)
    requires Divisible(x) && rank < x.ranks
    ensures Times(ShardOf(x, id, rank), ShardSize(x, id)) + ShardSize(x, id) <= Times(TotalHeads(x, id), x.headSize)
  {
    ReplicasPositive(x);
    var shard, n := ShardOf(x, id, rank), if id == Q then NumHeads(x) else NumKvHeads(x);
    var shards := if id == Q then x.ranks else if x.ranks >= x.kvHeads then x.kvHeads else x.ranks;
    if id != Q {
      OneEach(x.kvHeads);
      QuotientByOne(rank);
      if x.ranks >= x.kvHeads {
        QuotientBelow(rank, x.kvHeads, Replicas(x));
      }
    }
    assert shard < shards && Times(shards, n) == TotalHeads(x, id);
    TimesAssociates(shards, n, x.headSize);
    TimesGrows(shard + 1, shards, ShardSize(x, id));
  }

  /** The rows of a projection are where the rank's parameter expects them. */
  ghost predicate RowsLoaded(x: Qkv, id: ShardId, rank: nat, w: seq<seq<real>>, param: seq<seq<real>>)
    requires Divisible(x) && rank < x.ranks && |w| == Times(TotalHeads(x, id), x.headSize)
  {
    ShardFits(x, id, rank);
    && ShardOffset(x, id) + ShardSize(x, id) <= |param|
    && param[ShardOffset(x, id)..ShardOffset(x, id) + ShardSize(x, id)]
       == w[Times(ShardOf(x, id, rank), ShardSize(x, id))
            ..Times(ShardOf(x, id, rank), ShardSize(x, id)) + ShardSize(x, id)]
  }

  /** Copies the rank's shard of one projection into its place. */
  method WeightLoader(param: array<seq<real>>, x: Qkv, id: ShardId, rank: nat, w: seq<seq<real>>)
    requires Divisible(x) && rank < x.ranks && |w| == Times(TotalHeads(x, id), x.headSize)
    requires ShardOffset(x, id) + ShardSize(x, id) <= param.Length
    modifies param
    ensures RowsLoaded(x, id, rank, w, param[..])
    ensures forall i :: 0 <= i < param.Length && !(ShardOffset(x, id) <= i < ShardOffset(x, id) + ShardSize(x, id)) ==>
            param[i] == old(param[i])
  {
    ShardFits(x, id, rank);
    CopyNarrow(param, ShardOffset(x, id), w, Times(ShardOf(x, id, rank), ShardSize(x, id)), ShardSize(x, id));
  }

  /** Copies a stretch of rows. */
  method CopyNarrow(param: array<seq<real>>, offset: nat, w: seq<seq<real>>, start: nat, size: nat)
    requires offset + size <= param.Length && start + size <= |w|
    modifies param
    ensures param[offset..offset + size] == w[start..start + size]
    ensures forall i :: 0 <= i < param.Length && !(offset <= i < offset + size) ==> param[i] == old(param[i])
  {
    for i := 0 to size
      invariant param[offset..offset + i] == w[start..start + i]
      invariant forall k :: 0 <= k < param.Length && !(offset <= k < offset + i) ==> param[k] == old(param[k])
    {
      param[offset + i] := w[start + i];
      assert param[offset..offset + i + 1] == param[offset..offset + i] + [w[start + i]];
    }
  }

  /** The parameter has room for the three shards, one after the other. */
  lemma ShardsInOrder(x: Qkv)
    requires Divisible(x)
    ensures ShardOffset(x, K) == ShardSize(x, Q) && ShardOffset(x, V) == ShardSize(x, Q) + ShardSize(x, K)
            && ShardSize(x, K) == ShardSize(x, V)
  {
    TimesSum(NumHeads(x), NumKvHeads(x), x.headSize);
  }

  /** Loads a checkpoint in which the three projections are packed one after the other. */
  method LoadPacked(param: array<seq<real>>, x: Qkv, rank: nat, w: seq<seq<real>>)
    requires Divisible(x) && rank < x.ranks
    requires |w| == Times(x.heads, x.headSize) + Times(x.kvHeads, x.headSize) + Times(x.kvHeads, x.headSize)
    requires param.Length == ShardSize(x, Q) + ShardSize(x, K) + ShardSize(x, V)
    modifies param
    ensures var q, kv := Times(x.heads, x.headSize), Times(x.kvHeads, x.headSize);
            RowsLoaded(x, Q, rank, w[..q], param[..]) && RowsLoaded(x, K, rank, w[q..q + kv], param[..])
              && RowsLoaded(x, V, rank, w[q + kv..], param[..])
  {
    ShardsInOrder(x);
    TimesSum(x.heads, x.kvHeads, x.headSize);
    var q, kv := Times(x.heads, x.headSize), Times(x.kvHeads, x.headSize);
    WeightLoader(param, x, Q, rank, w[..q]);
    ghost var p1 := param[..];
    WeightLoader(param, x, K, rank, w[q..q + kv]);
    ghost var p2 := param[..];
    RowsStay(x, Q, rank, w[..q], p1, p2);
    WeightLoader(param, x, V, rank, w[q + kv..]);
    RowsStay(x, Q, rank, w[..q], p2, param[..]);
    RowsStay(x, K, rank, w[q..q + kv], p2, param[..]);
  }

  lemma RowsStay(x: Qkv, id: ShardId, rank: nat, w: seq<seq<real>>, p0: seq<seq<real>>, p: seq<seq<real>>)
    requires Divisible(x) && rank < x.ranks && |w| == Times(TotalHeads(x, id), x.headSize)
    requires RowsLoaded(x, id, rank, w, p0) && |p| == |p0|
    requires forall i :: ShardOffset(x, id) <= i < ShardOffset(x, id) + ShardSize(x, id) ==> p[i] == p0[i]
    ensures RowsLoaded(x, id, rank, w, p)
  {
    var offset, size := ShardOffset(x, id), ShardSize(x, id);
    assert p[offset..offset + size] == p0[offset..offset + size];
  }

  /** The row of a local head is the row of its head in the whole model. */
  lemma HeadRow(x: Qkv, id: ShardId, rank: nat, w: seq<seq<real>>, param: seq<seq<real>>, h: nat, d: nat)
    requires Divisible(x) && rank < x.ranks && |w| == Times(TotalHeads(x, id), x.headSize)
             && RowsLoaded(x, id, rank, w, param)
    requires h < (if id == Q then NumHeads(x) else NumKvHeads(x)) && d < x.headSize
    ensures var g := if id == Q then Times(rank, NumHeads(x)) + h else GlobalKv(x, rank, h);
            && ShardOffset(x, id) + Times(h, x.headSize) + d < |param| && Times(g, x.headSize) + d < |w|
            && param[ShardOffset(x, id) + Times(h, x.headSize) + d] == w[Times(g, x.headSize) + d]
  {
    ShardFits(x, id, rank);
    PlaceOfRow(x, id, rank, h, d);
    var i, offset, start, size :=
      Times(h, x.headSize) + d, ShardOffset(x, id), Times(ShardOf(x, id, rank), ShardSize(x, id)), ShardSize(x, id);
    assert param[offset..offset + size][i] == w[start..start + size][i];
  }

  lemma PlaceOfRow(x: Qkv, id: ShardId, rank: nat, h: nat, d: nat)
    requires Divisible(x) && rank < x.ranks && h < (if id == Q then NumHeads(x) else NumKvHeads(x)) && d < x.headSize
    ensures Times(h, x.headSize) + d < ShardSize(x, id)
    ensures Times(ShardOf(x, id, rank), ShardSize(x, id)) + Times(h, x.headSize)
         == Times(if id == Q then Times(rank, NumHeads(x)) + h else GlobalKv(x, rank, h), x.headSize)
  {
    var n, shard := if id == Q then NumHeads(x) else NumKvHeads(x), ShardOf(x, id, rank);
    TimesGrows(h + 1, n, x.headSize);
    TimesAssociates(shard, n, x.headSize);
    TimesSum(Times(shard, n), h, x.headSize);
  }

  /**
   On every rank, the key and value rows that a query head attends to are those of the key/value head of
   its group in the whole model.
  */
  lemma RanksAttendAlike(x: Qkv, rank: nat, wq: seq<seq<real>>, wkv: seq<seq<real>>, id: ShardId, param: seq<seq<real>>,
                         h: nat, d: nat)
    requires Divisible(x) && rank < x.ranks && |wq| == Times(x.heads, x.headSize)
             && |wkv| == Times(x.kvHeads, x.headSize) && id != Q
    requires RowsLoaded(x, Q, rank, wq, param) && RowsLoaded(x, id, rank, wkv, param) && h < NumHeads(x)
             && d < x.headSize
    ensures LocalGroup(x) > 0 && Group(x) > 0
    ensures var g, k := Times(rank, NumHeads(x)) + h, Quotient(h, LocalGroup(x));
            && Times(h, x.headSize) + d < |param| && Times(g, x.headSize) + d < |wq|
              && param[Times(h, x.headSize) + d] == wq[Times(g, x.headSize) + d]
            && ShardOffset(x, id) + Times(k, x.headSize) + d < |param|
              && Times(Quotient(g, Group(x)), x.headSize) + d < |wkv|
            && param[ShardOffset(x, id) + Times(k, x.headSize) + d] == wkv[Times(Quotient(g, Group(x)), x.headSize) + d]
  {
    HeadsPair(x, rank, h);
    HeadRow(x, Q, rank, wq, param, h, d);
    HeadRow(x, id, rank, wkv, param, Quotient(h, LocalGroup(x)), d);
  }
}
