/**
 Sorting the routed tokens by expert and padding every expert to whole blocks: the contract of the
 alignment, and a reference alignment that meets it within the buffers that are allocated.
*/
module MoeAlign {
  import opened Basics

  /** Token numbers by position, the expert of every block, and how many positions are in use. */
  datatype Alignment = Alignment(sorted: seq<nat>, expertIds: seq<nat>, padded: nat)

  /** A position holds a token of its block's expert, or padding. */
  ghost predicate PlaceRight(topk: seq<nat>, experts: nat, block: nat, sorted: seq<nat>, expertIds: seq<nat>, p: nat)
    requires block > 0 && p < |sorted|
  {
    var i := Quotient(p, block);
    i < |expertIds| && expertIds[i] < experts && (if sorted[p] < |topk| then topk[sorted[p]] == expertIds[i]
      else sorted[p] == |topk|)
  }

  ghost predicate PlacesRight(topk: seq<nat>, experts: nat, block: nat, sorted: seq<nat>, expertIds: seq<nat>,
                              padded: nat)
    requires block > 0 && padded <= |sorted|
  {
    forall p: nat :: p < padded ==> PlaceRight(topk, experts, block, sorted, expertIds, p)
  }

  ghost predicate Placed(sorted: seq<nat>, padded: nat, t: nat)
    requires padded <= |sorted|
  {
    exists p :: 0 <= p < padded && sorted[p] == t
  }

  /** Tokens of the experts below `experts` are all there. */
  ghost predicate NoneMissing(topk: seq<nat>, experts: nat, sorted: seq<nat>, padded: nat)
    requires padded <= |sorted|
  {
    forall t: nat :: t < |topk| && topk[t] < experts ==> Placed(sorted, padded, t)
  }

  ghost predicate NoneTwice(topk: seq<nat>, sorted: seq<nat>, padded: nat)
    requires padded <= |sorted|
  {
    forall p, q :: 0 <= p < q < padded && sorted[p] < |topk| ==> sorted[p] != sorted[q]
  }

  /** The contract: whole blocks of one expert each, every routed token once, the rest padding. */
  ghost predicate Aligned(topk: seq<nat>, experts: nat, block: nat, a: Alignment) {
    && block > 0 && a.padded <= |a.sorted| && a.padded == Times(Quotient(a.padded, block), block)
    && PlacesRight(topk, experts, block, a.sorted, a.expertIds, a.padded)
    && NoneMissing(topk, experts, a.sorted, a.padded) && NoneTwice(topk, a.sorted, a.padded)
  }

  // ---------------------------------------------------------------------------------------------- padding

  /** Positions below `n` that hold a routed token. */
  function Filling(sorted: seq<nat>, len: nat, n: nat): nat
    requires n <= |sorted|
  {
    if n == 0 then 0 else Filling(sorted, len, n - 1) + if sorted[n - 1] < len then 1 else 0
  }

  predicate PadsAt(a: Alignment, block: nat, len: nat, e: nat, p: nat)
    requires block > 0 && p < |a.sorted|
  {
    var i := Quotient(p, block);
    a.sorted[p] >= len && i < |a.expertIds| && a.expertIds[i] == e
  }

  /** Positions below `n` that pad the blocks of expert `e`. */
  function Padding(a: Alignment, block: nat, len: nat, e: nat, n: nat): nat
    requires block > 0 && n <= |a.sorted|
  {
    if n == 0 then 0 else Padding(a, block, len, e, n - 1) + if PadsAt(a, block, len, e, n - 1) then 1 else 0
  }

  /** Less than a block of padding for every expert. */
  ghost predicate LittlePadding(topk: seq<nat>, experts: nat, block: nat, a: Alignment)
    requires block > 0 && a.padded <= |a.sorted|
  {
    forall e: nat :: e < experts ==> Padding(a, block, |topk|, e, a.padded) < block
  }

  lemma {:induction false} PaddingGrows(a: Alignment, block: nat, len: nat, e: nat, n0: nat, n: nat)
    requires block > 0 && n0 <= n <= |a.sorted|
    ensures Padding(a, block, len, e, n0) <= Padding(a, block, len, e, n) <= Padding(a, block, len, e, n0) + n - n0
    ensures Filling(a.sorted, len, n0) <= Filling(a.sorted, len, n)
  {
    if n0 < n {
      PaddingGrows(a, block, len, e, n0, n - 1);
    }
  }

  /** Position `p` holds the same, in a block of the same expert. */
  predicate SamePlace(a: Alignment, b: Alignment, block: nat, p: nat)
    requires block > 0
  {
    var i := Quotient(p, block);
    p < |a.sorted| && p < |b.sorted| && a.sorted[p] == b.sorted[p]
    && i < |a.expertIds| && i < |b.expertIds| && a.expertIds[i] == b.expertIds[i]
  }

  lemma {:induction false} SamePadding(a: Alignment, b: Alignment, block: nat, len: nat, e: nat, n: nat)
    requires block > 0 && n <= |a.sorted| && n <= |b.sorted|
    requires forall p: nat :: p < n ==> SamePlace(a, b, block, p)
    ensures Padding(a, block, len, e, n) == Padding(b, block, len, e, n)
  {
    if n > 0 {
      SamePadding(a, b, block, len, e, n - 1);
      assert SamePlace(a, b, block, n - 1);
    }
  }

  lemma {:induction false} NoPadding(a: Alignment, block: nat, len: nat, e: nat, n0: nat, n: nat)
    requires block > 0 && n0 <= n <= |a.sorted| && forall p: nat :: n0 <= p < n ==> !PadsAt(a, block, len, e, p)
    ensures Padding(a, block, len, e, n) == Padding(a, block, len, e, n0)
  {
    if n0 < n {
      NoPadding(a, block, len, e, n0, n - 1);
    }
  }

  // --------------------------------------------------------------------------------- a reference alignment

  /** The tokens below `n` that are routed to an expert. */
  function TokensOf(topk: seq<nat>, e: nat, n: nat): (r: seq<nat>)
    requires n <= |topk|
  {
    if n == 0 then [] else TokensOf(topk, e, n - 1) + if topk[n - 1] == e then [n - 1] else []
  }

  lemma {:induction false} TokensOfRight(topk: seq<nat>, e: nat, n: nat)
    requires n <= |topk|
    ensures forall p :: 0 <= p < |TokensOf(topk, e, n)| ==>
            TokensOf(topk, e, n)[p] < n && topk[TokensOf(topk, e, n)[p]] == e
    ensures forall p, q :: 0 <= p < q < |TokensOf(topk, e, n)| ==> TokensOf(topk, e, n)[p] < TokensOf(topk, e, n)[q]
    ensures forall t: nat :: t < n && topk[t] == e ==> t in TokensOf(topk, e, n)
  {
    if n > 0 {
      TokensOfRight(topk, e, n - 1);
    }
  }

  function PadTo(s: seq<nat>, pad: nat, size: nat): (r: seq<nat>)
    requires |s| <= size
    ensures |r| == size && r[..|s|] == s && forall p :: |s| <= p < size ==> r[p] == pad
  {
    s + seq(size - |s|, _ => pad)
  }

  /** Tokens below `n` routed to experts below `e`. */
  function CountBelow(topk: seq<nat>, e: nat, n: nat): (r: nat)
    requires n <= |topk|
    ensures r <= n
  {
    if n == 0 then 0 else CountBelow(topk, e, n - 1) + if topk[n - 1] < e then 1 else 0
  }

  lemma {:induction false} OneMoreExpert(topk: seq<nat>, e: nat, n: nat)
    requires n <= |topk|
    ensures CountBelow(topk, e + 1, n) == CountBelow(topk, e, n) + |TokensOf(topk, e, n)|
    ensures CountBelow(topk, 0, n) == 0
  {
    if n > 0 {
      OneMoreExpert(topk, e, n - 1);
    }
  }

  /** All tokens of one expert, each once, and padding. */
  ghost predicate ChunkOf(topk: seq<nat>, e: nat, chunk: seq<nat>) {
    && (forall q: nat :: q < |chunk| ==> if chunk[q] < |topk| then topk[chunk[q]] == e else chunk[q] == |topk|)
    && (forall p, q :: 0 <= p < q < |chunk| && chunk[p] < |topk| ==> chunk[p] != chunk[q])
    && (forall t: nat :: t < |topk| && topk[t] == e ==> t in chunk)
  }

  lemma PlacesJoin(topk: seq<nat>, e: nat, block: nat, s0: seq<nat>, x0: seq<nat>, chunk: seq<nat>, n: nat, e1: nat,
                   s: seq<nat>, x: seq<nat>)
    requires e1 == e + 1 && s == s0 + chunk && x == PadTo(x0, e, |x0| + n)
    requires block > 0 && PlacesRight(topk, e, block, s0, x0, |s0|) && ChunkOf(topk, e, chunk)
    requires |s0| == Times(|x0|, block) && |chunk| == Times(n, block)
    ensures PlacesRight(topk, e1, block, s, x, |s|)
  {
    forall p: nat | p < |s|
      ensures PlaceRight(topk, e1, block, s, x, p)
    {
      if p < |s0| {
        assert PlaceRight(topk, e, block, s0, x0, p);
        assert x[..|x0|] == x0 && forall i :: 0 <= i < |x0| ==> x[i] == x[..|x0|][i];
      } else {
        LaterPlace(topk, e, block, s0, x0, chunk, n, e1, s, x, p);
      }
    }
  }

  lemma LaterPlace(topk: seq<nat>, e: nat, block: nat, s0: seq<nat>, x0: seq<nat>, chunk: seq<nat>, n: nat, e1: nat,
                   s: seq<nat>, x: seq<nat>, p: nat)
    requires block > 0 && e1 == e + 1 && s == s0 + chunk && x == PadTo(x0, e, |x0| + n)
    requires |s0| == Times(|x0|, block) && |chunk| == Times(n, block) && |s0| <= p < |s|
    requires if chunk[p - |s0|] < |topk| then topk[chunk[p - |s0|]] == e else chunk[p - |s0|] == |topk|
    ensures PlaceRight(topk, e1, block, s, x, p)
  {
    var i := LaterBlock(|x0|, p, n, block);
    assert s[p] == chunk[p - |s0|] && x[i] == e;
  }

  lemma LaterBlock(a: nat, p: nat, n: nat, block: nat) returns (i: nat)
    requires block > 0 && Times(a, block) <= p < Times(a, block) + Times(n, block)
    ensures i == Quotient(p, block) && a <= i < a + n
  {
    i := Quotient(p, block);
    QuotientShifts(a, p - Times(a, block), block);
    QuotientBelow(p - Times(a, block), n, block);
  }

  lemma TokensJoin(topk: seq<nat>, e: nat, block: nat, s0: seq<nat>, x0: seq<nat>, chunk: seq<nat>, e1: nat,
                   s: seq<nat>)
    requires e1 == e + 1 && s == s0 + chunk
    requires block > 0 && PlacesRight(topk, e, block, s0, x0, |s0|) && ChunkOf(topk, e, chunk)
    requires NoneMissing(topk, e, s0, |s0|) && NoneTwice(topk, s0, |s0|)
    ensures NoneMissing(topk, e1, s, |s|) && NoneTwice(topk, s, |s|)
  {
    forall p, q | 0 <= p < q < |s| && s[p] < |topk|
      ensures s[p] != s[q]
    {
      if p < |s0| {
        assert PlaceRight(topk, e, block, s0, x0, p);
      }
    }
    forall t: nat | t < |topk| && topk[t] < e1
      ensures Placed(s, |s|, t)
    {
      if topk[t] < e {
        assert Placed(s0, |s0|, t);
        var p :| 0 <= p < |s0| && s0[p] == t;
        assert s[p] == t;
      } else {
        var q :| 0 <= q < |chunk| && chunk[q] == t;
        assert s[|s0| + q] == t;
      }
    }
  }

  /** The tokens of the experts below `e`, so far. */
  ghost predicate AlignedUpTo(topk: seq<nat>, e: nat, block: nat, s: seq<nat>, x: seq<nat>)
    requires block > 0
  {
    && |s| == Times(|x|, block) && PlacesRight(topk, e, block, s, x, |s|)
    && NoneMissing(topk, e, s, |s|) && NoneTwice(topk, s, |s|)
    && LittlePadding(topk, e, block, Alignment(s, x, |s|))
  }

  lemma PaddingJoins(topk: seq<nat>, e: nat, block: nat, s0: seq<nat>, x0: seq<nat>, chunk: seq<nat>, n: nat, k: nat,
                     e1: nat, s: seq<nat>, x: seq<nat>)
    requires block > 0 && e1 == e + 1 && AlignedUpTo(topk, e, block, s0, x0)
    requires s == s0 + chunk && x == PadTo(x0, e, |x0| + n) && |chunk| == Times(n, block)
    requires k <= |chunk| < k + block && forall q :: 0 <= q < k ==> chunk[q] < |topk|
    ensures LittlePadding(topk, e1, block, Alignment(s, x, |s|))
  {
    var a0, a := Alignment(s0, x0, |s0|), Alignment(s, x, |s|);
    forall f: nat | f < e1
      ensures Padding(a, block, |topk|, f, |s|) < block
    {
      OldBlocks(topk, e, block, a0, a, n);
      SamePadding(a0, a, block, |topk|, f, |s0|);
      if f < e {
        assert Padding(a0, block, |topk|, f, |s0|) < block;
        NewBlocks(e, block, |topk|, a0, a, n, f);
        NoPadding(a, block, |topk|, f, |s0|, |s|);
      } else {
        NoneYet(topk, e, block, a0);
        NoPadding(a, block, |topk|, f, |s0|, |s0| + k);
        PaddingGrows(a, block, |topk|, f, |s0| + k, |s|);
      }
    }
  }

  lemma OldBlocks(topk: seq<nat>, e: nat, block: nat, a0: Alignment, a: Alignment, n: nat)
    requires block > 0 && PlacesRight(topk, e, block, a0.sorted, a0.expertIds, |a0.sorted|)
    requires a0.sorted <= a.sorted && a.expertIds == PadTo(a0.expertIds, e, |a0.expertIds| + n)
    ensures forall p: nat :: p < |a0.sorted| ==> SamePlace(a0, a, block, p)
  {
    forall p: nat | p < |a0.sorted|
      ensures SamePlace(a0, a, block, p)
    {
      assert PlaceRight(topk, e, block, a0.sorted, a0.expertIds, p);
      var i := Quotient(p, block);
      assert a.expertIds[i] == a.expertIds[..|a0.expertIds|][i];
    }
  }

  lemma NoneYet(topk: seq<nat>, e: nat, block: nat, a: Alignment)
    requires block > 0 && PlacesRight(topk, e, block, a.sorted, a.expertIds, |a.sorted|)
    ensures Padding(a, block, |topk|, e, |a.sorted|) == 0
  {
    forall p: nat | p < |a.sorted|
      ensures !PadsAt(a, block, |topk|, e, p)
    {
      assert PlaceRight(topk, e, block, a.sorted, a.expertIds, p);
    }
    NoPadding(a, block, |topk|, e, 0, |a.sorted|);
  }

  lemma NewBlocks(e: nat, block: nat, len: nat, a0: Alignment, a: Alignment, n: nat, f: nat)
    requires block > 0 && f != e && |a0.sorted| == Times(|a0.expertIds|, block)
    requires |a.sorted| == |a0.sorted| + Times(n, block)
    requires a.expertIds == PadTo(a0.expertIds, e, |a0.expertIds| + n)
    ensures forall p: nat :: |a0.sorted| <= p < |a.sorted| ==> !PadsAt(a, block, len, f, p)
  {
    forall p: nat | |a0.sorted| <= p < |a.sorted|
      ensures !PadsAt(a, block, len, f, p)
    {
      var i := LaterBlock(|a0.expertIds|, p, n, block);
    }
  }

  /** Block by block, expert by expert: little padding per expert, and one block per token at worst. */
  lemma {:induction false} BuildUpTo(topk: seq<nat>, e: nat, block: nat) returns (s: seq<nat>, x: seq<nat>)
    requires block > 0
    ensures AlignedUpTo(topk, e, block, s, x)
    ensures |s| <= CountBelow(topk, e, |topk|) + Times(e, block - 1) && |x| <= CountBelow(topk, e, |topk|)
  {
    if e == 0 {
      s, x := [], [];
    } else {
      var s0, x0 := BuildUpTo(topk, e - 1, block);
      s, x := Append(topk, e - 1, block, s0, x0, e);
    }
  }

  lemma Append(topk: seq<nat>, e: nat, block: nat, s0: seq<nat>, x0: seq<nat>, e1: nat)
    returns (s: seq<nat>, x: seq<nat>)
    requires block > 0 && e1 == e + 1 && AlignedUpTo(topk, e, block, s0, x0)
    requires |s0| <= CountBelow(topk, e, |topk|) + Times(e, block - 1) && |x0| <= CountBelow(topk, e, |topk|)
    ensures AlignedUpTo(topk, e1, block, s, x)
    ensures |s| <= CountBelow(topk, e1, |topk|) + Times(e1, block - 1) && |x| <= CountBelow(topk, e1, |topk|)
  {
    var chunk, n, k := NextChunk(topk, e, block);
    s, x := s0 + chunk, PadTo(x0, e, |x0| + n);
    PlacesJoin(topk, e, block, s0, x0, chunk, n, e1, s, x);
    TokensJoin(topk, e, block, s0, x0, chunk, e1, s);
    PaddingJoins(topk, e, block, s0, x0, chunk, n, k, e1, s, x);
    TimesSum(|x0|, n, block);
    assert Times(e1, block - 1) == Times(e, block - 1) + (block - 1);
  }

  lemma NextChunk(topk: seq<nat>, e: nat, block: nat) returns (chunk: seq<nat>, n: nat, k: nat)
    requires block > 0
    ensures ChunkOf(topk, e, chunk) && |chunk| == Times(n, block)
    ensures CountBelow(topk, e, |topk|) + |chunk| <= CountBelow(topk, e + 1, |topk|) + (block - 1)
    ensures CountBelow(topk, e, |topk|) + n <= CountBelow(topk, e + 1, |topk|)
    ensures k <= |chunk| < k + block && forall q :: 0 <= q < k ==> chunk[q] < |topk|
  {
    var tokens := TokensOf(topk, e, |topk|);
    OneMoreExpert(topk, e, |topk|);
    TokensOfRight(topk, e, |topk|);
    n, k := Blocks(|tokens|, block), |tokens|;
    chunk := PadTo(tokens, |topk|, Times(n, block));
    assert forall q :: 0 <= q < |tokens| ==> chunk[q] == chunk[..|tokens|][q] == tokens[q];
  }

  /** Whatever the routing, an alignment that meets the contract fits into the buffers that are allocated for it. */
  lemma BuffersSuffice(topk: seq<nat>, experts: nat, block: nat) returns (a: Alignment)
    requires block > 0
    ensures |a.sorted| == |topk| + Times(experts, block - 1) && |a.expertIds| == |topk| + experts
    ensures Aligned(topk, experts, block, a) && LittlePadding(topk, experts, block, a)
  {
    var s, x := BuildUpTo(topk, experts, block);
    a := Alignment(PadTo(s, |topk|, |topk| + Times(experts, block - 1)), PadTo(x, 0, |topk| + experts), |s|);
    Filled(topk, experts, block, s, x, a);
  }

  lemma FilledPadding(topk: seq<nat>, experts: nat, block: nat, s: seq<nat>, x: seq<nat>, a: Alignment)
    requires block > 0 && AlignedUpTo(topk, experts, block, s, x)
    requires |s| <= |a.sorted| && |x| <= |a.expertIds| && a.sorted[..|s|] == s && a.expertIds[..|x|] == x
             && a.padded == |s|
    ensures LittlePadding(topk, experts, block, a)
  {
    var a0 := Alignment(s, x, |s|);
    forall p: nat | p < |s|
      ensures SamePlace(a0, a, block, p)
    {
      assert PlaceRight(topk, experts, block, s, x, p);
      var i := Quotient(p, block);
      assert a.sorted[p] == a.sorted[..|s|][p] && a.expertIds[i] == a.expertIds[..|x|][i];
    }
    forall e: nat | e < experts
      ensures Padding(a, block, |topk|, e, a.padded) < block
    {
      SamePadding(a0, a, block, |topk|, e, |s|);
      assert Padding(a0, block, |topk|, e, |s|) < block;
    }
  }

  lemma Filled(topk: seq<nat>, experts: nat, block: nat, s: seq<nat>, x: seq<nat>, a: Alignment)
    requires block > 0 && AlignedUpTo(topk, experts, block, s, x)
    requires |s| <= |a.sorted| && |x| <= |a.expertIds| && a.sorted[..|s|] == s && a.expertIds[..|x|] == x
             && a.padded == |s|
    ensures Aligned(topk, experts, block, a) && LittlePadding(topk, experts, block, a)
  {
    FilledPadding(topk, experts, block, s, x, a);
    QuotientShifts(|x|, 0, block);
    assert forall p :: 0 <= p < |s| ==> a.sorted[p] == a.sorted[..|s|][p];
    assert forall i :: 0 <= i < |x| ==> a.expertIds[i] == a.expertIds[..|x|][i];
    forall p: nat | p < a.padded
      ensures PlaceRight(topk, experts, block, a.sorted, a.expertIds, p)
    {
      assert PlaceRight(topk, experts, block, s, x, p);
    }
    forall t: nat | t < |topk| && topk[t] < experts
      ensures Placed(a.sorted, a.padded, t)
    {
      assert Placed(s, |s|, t);
    }
  }

  // --------------------------------------------------------------- every alignment with little padding fits

  function PaddingBelow(a: Alignment, block: nat, len: nat, experts: nat, n: nat): nat
    requires block > 0 && n <= |a.sorted|
  {
    if experts == 0 then 0
    else PaddingBelow(a, block, len, experts - 1, n) + Padding(a, block, len, experts - 1, n)
  }

  lemma {:induction false} OneMorePad(a: Alignment, block: nat, len: nat, experts: nat, n: nat)
    requires block > 0 && n < |a.sorted|
    ensures PaddingBelow(a, block, len, experts, n + 1) == PaddingBelow(a, block, len, experts, n) +
            if exists e: nat :: e < experts && PadsAt(a, block, len, e, n) then 1 else 0
  {
    if experts > 0 {
      OneMorePad(a, block, len, experts - 1, n);
    }
  }

  lemma {:induction false} NothingPadded(a: Alignment, block: nat, len: nat, experts: nat)
    requires block > 0
    ensures PaddingBelow(a, block, len, experts, 0) == 0
  {
    if experts > 0 {
      NothingPadded(a, block, len, experts - 1);
    }
  }

  /** Every position is a routed token or padding of one expert. */
  lemma {:induction false} FilledOrPadded(topk: seq<nat>, experts: nat, block: nat, a: Alignment, n: nat)
    requires Aligned(topk, experts, block, a) && n <= a.padded
    ensures n == Filling(a.sorted, |topk|, n) + PaddingBelow(a, block, |topk|, experts, n)
  {
    if n == 0 {
      NothingPadded(a, block, |topk|, experts);
    } else {
      FilledOrPadded(topk, experts, block, a, n - 1);
      OneMorePad(a, block, |topk|, experts, n - 1);
      assert PlaceRight(topk, experts, block, a.sorted, a.expertIds, n - 1);
      assert a.sorted[n - 1] >= |topk| ==> PadsAt(a, block, |topk|, a.expertIds[Quotient(n - 1, block)], n - 1);
    }
  }

  lemma {:induction false} LittleInAll(topk: seq<nat>, experts: nat, block: nat, a: Alignment)
    requires block > 0 && a.padded <= |a.sorted| && LittlePadding(topk, experts, block, a)
    ensures PaddingBelow(a, block, |topk|, experts, a.padded) <= Times(experts, block - 1)
  {
    if experts > 0 {
      LittleInAll(topk, experts - 1, block, a);
      assert Padding(a, block, |topk|, experts - 1, a.padded) < block;
    }
  }

  function Fillers(sorted: seq<nat>, len: nat, n: nat): (b: set<int>)
    requires n <= |sorted|
    ensures forall t :: t in b ==> 0 <= t < len
  {
    if n == 0 then {} else Fillers(sorted, len, n - 1) + if sorted[n - 1] < len then {sorted[n - 1]} else {}
  }

  lemma {:induction false} FillerPlace(sorted: seq<nat>, len: nat, n: nat, t: nat) returns (p: nat)
    requires n <= |sorted| && t in Fillers(sorted, len, n)
    ensures p < n && sorted[p] == t
  {
    p := n - 1;
    if sorted[p] != t {
      p := FillerPlace(sorted, len, n - 1, t);
    }
  }

  /** No more routed places than routed tokens. */
  lemma {:induction false} FillersCount(topk: seq<nat>, sorted: seq<nat>, padded: nat, n: nat)
    requires n <= padded <= |sorted| && NoneTwice(topk, sorted, padded)
    ensures |Fillers(sorted, |topk|, n)| == Filling(sorted, |topk|, n)
  {
    if n > 0 {
      FillersCount(topk, sorted, padded, n - 1);
      if sorted[n - 1] in Fillers(sorted, |topk|, n - 1) {
        var p := FillerPlace(sorted, |topk|, n - 1, sorted[n - 1]);
        assert false;
      }
    }
  }

  /** A block without a token is all padding of its expert. */
  lemma {:induction false} EmptyBlock(topk: seq<nat>, experts: nat, block: nat, a: Alignment, i: nat, k: nat)
    requires Aligned(topk, experts, block, a) && k <= block && Times(i, block) + k <= a.padded && i < |a.expertIds|
    ensures Filling(a.sorted, |topk|, Times(i, block) + k) > Filling(a.sorted, |topk|, Times(i, block))
            || Padding(a, block, |topk|, a.expertIds[i], Times(i, block) + k) >= k
  {
    if k > 0 {
      EmptyBlock(topk, experts, block, a, i, k - 1);
      QuotientShifts(i, k - 1, block);
      var p := Times(i, block) + k - 1;
      assert PlaceRight(topk, experts, block, a.sorted, a.expertIds, p);
      assert a.sorted[p] < |topk| || PadsAt(a, block, |topk|, a.expertIds[i], p);
      PaddingGrows(a, block, |topk|, a.expertIds[i], Times(i, block), p);
    }
  }

  /** So with little padding every block has a token. */
  lemma {:induction false} BlocksFilled(topk: seq<nat>, experts: nat, block: nat, a: Alignment, i: nat)
    requires Aligned(topk, experts, block, a) && Times(i, block) <= a.padded && LittlePadding(topk, experts, block, a)
    ensures i <= Filling(a.sorted, |topk|, Times(i, block))
  {
    if i > 0 {
      BlocksFilled(topk, experts, block, a, i - 1);
      QuotientShifts(i - 1, 0, block);
      assert PlaceRight(topk, experts, block, a.sorted, a.expertIds, Times(i - 1, block));
      EmptyBlock(topk, experts, block, a, i - 1, block);
      PaddingGrows(a, block, |topk|, a.expertIds[i - 1], Times(i, block), a.padded);
    }
  }

  /**
   Every alignment with less than a block of padding per expert fits into the buffers that are allocated, whatever the
   routing, and has no more blocks than there are routed tokens.
  */
  lemma LittlePaddingFits(topk: seq<nat>, experts: nat, block: nat, a: Alignment)
    requires Aligned(topk, experts, block, a) && LittlePadding(topk, experts, block, a)
    ensures a.padded <= |topk| + Times(experts, block - 1) && Quotient(a.padded, block) <= |topk|
  {
    FilledOrPadded(topk, experts, block, a, a.padded);
    LittleInAll(topk, experts, block, a);
    FillersCount(topk, a.sorted, a.padded, a.padded);
    WithinRange(0, |topk|, Fillers(a.sorted, |topk|, a.padded));
    BlocksFilled(topk, experts, block, a, Quotient(a.padded, block));
  }
}
