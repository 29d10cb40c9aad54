/**
 The order in which the decode loop touches micro-batches, as a function on their settled states, and
 the proof that this order takes every micro-batch through all layers one after the other.
*/
module Schedule {
  import opened Basics
  import opened Network

  /** Layer `i` of the endless repetition of the layers, for at most one round beyond the last. */
  function Wrap(z: Sizes, i: nat): nat {
    if i < z.layers then i else i - z.layers
  }

  lemma WrapIsModulo(z: Sizes, i: nat)
    requires z.layers <= i < 2 * z.layers || i < z.layers
    ensures Wrap(z, i) == i % z.layers
  {
    if z.layers <= i {
      DivMod(z.layers, 1, i - z.layers);
    }
  }

  /** Layers micro-batch `kk` has completed when step (i, k) is next. */
  function LayersDone(i: nat, k: nat, kk: nat): nat {
    if kk < k then i + 1 else i
  }

  /** How many steps after (i, k) the next layer of micro-batch `kk` comes. */
  function Distance(slots: nat, k: nat, kk: nat): int {
    if kk < k then kk + slots - k else kk - k
  }

  /** Layer `d` of a micro-batch `distance` steps away has been started. */
  predicate UnderWay(z: Sizes, slots: nat, d: nat, distance: int) {
    d < z.layers && (d == 0 || slots > 2) && distance < 2
  }

  /** The micro-batch whose turn comes two steps after that of `k`. */
  function TwoAhead(slots: nat, k: nat): (r: nat)
    requires k < slots
    ensures slots > 2 ==> r == if k + 2 < slots then k + 2 else k + 2 - slots
    ensures r < slots
  {
    (k + 2) % slots
  }

  /** The micro-batch that runs after `k`. */
  function OneAhead(slots: nat, k: nat): (r: nat)
    requires k < slots
    ensures r == if k + 1 < slots then k + 1 else 0
  {
    assert k + 1 == slots ==> (k + 1) % slots == 0;
    (k + 1) % slots
  }

  /** The layer whose first half step (i, k) issues, for micro-batch `TwoAhead(slots, k)`. */
  function LayerAhead(slots: nat, i: nat, k: nat): nat {
    if k + 2 < slots then i else i + 1
  }

  /** The settled states are those of `slots` micro-batches. */
  predicate Sized<V>(z: Sizes, ss: seq<Progress<V>>) {
    forall k :: 0 <= k < |ss| ==> |ss[k].batch.kv| == z.layers
  }

  /** Step (i, k): the rest of layer `i` for `k`, then the first half of what is two steps ahead. */
  function ScheduleStep<V>(net: Net<V>, z: Sizes, i: nat, k: nat, ss: seq<Progress<V>>): (r: seq<Progress<V>>)
    requires i < z.layers && k < |ss| && Sized(z, ss)
    ensures |r| == |ss| && Sized(z, r)
  {
    var s1 := ss[k := PipelineLayer(net, z, k, i, false, ss[k])];
    var m, l := TwoAhead(|ss|, k), LayerAhead(|ss|, i, k);
    if |ss| > 2 && l < z.layers then s1[m := Started(net, l, s1[m])] else s1
  }

  /** The first half of layer 0 for the first `n` micro-batches. */
  function PrologueSteps<V>(net: Net<V>, z: Sizes, n: nat, ss: seq<Progress<V>>): (r: seq<Progress<V>>)
    requires n <= |ss| && 0 < z.layers && Sized(z, ss)
    ensures |r| == |ss| && Sized(z, r)
  {
    if n == 0 then ss
    else
      var s := PrologueSteps(net, z, n - 1, ss);
      s[n - 1 := Started(net, 0, s[n - 1])]
  }

  /** The settled states when step (i, k) is next, from those at the start of the decode step. */
  function Scheduled<V>(net: Net<V>, z: Sizes, i: nat, k: nat, first: seq<Progress<V>>): (r: seq<Progress<V>>)
    requires i < z.layers && k <= |first| && Sized(z, first)
    ensures |r| == |first| && Sized(z, r)
    decreases i, k
  {
    if k > 0 then ScheduleStep(net, z, i, k - 1, Scheduled(net, z, i, k - 1, first))
    else if i > 0 then Scheduled(net, z, i - 1, |first|, first)
    else PrologueSteps(net, z, if |first| < 2 then |first| else 2, first)
  }

  /** Where micro-batch `kk` must be when step (i, k) is next: its next layer started two steps ahead. */
  function Expected<V>(net: Net<V>, z: Sizes, slots: nat, p: Progress<V>, i: nat, k: nat, kk: nat): Progress<V>
    requires i < z.layers && |p.batch.kv| == z.layers
  {
    var d := LayersDone(i, k, kk);
    var q := PipelineLayers(net, z, kk, d, slots > 2, p);
    if UnderWay(z, slots, d, Distance(slots, k, kk)) then Started(net, d, q) else q
  }

  lemma ExpectedStep<V>(net: Net<V>, z: Sizes, i: nat, k: nat, kk: nat, ss: seq<Progress<V>>, p: Progress<V>)
    requires i < z.layers && k < |ss| && kk < |ss| && Sized(z, ss) && |p.batch.kv| == z.layers
    requires ss[kk] == Expected(net, z, |ss|, p, i, k, kk)
    ensures ScheduleStep(net, z, i, k, ss)[kk] == Expected(net, z, |ss|, p, i, k + 1, kk)
  {
    if kk == k {
      var d, n := LayersDone(i, k, kk), |ss|;
      assert PipelineLayers(net, z, kk, d + 1, n > 2, p)
          == PipelineLayer(net, z, kk, d, d == 0 || n > 2, PipelineLayers(net, z, kk, d, n > 2, p));
    }
  }

  /** The prologue starts layer 0 of the first two micro-batches. */
  lemma PrologueAsExpected<V>(net: Net<V>, z: Sizes, first: seq<Progress<V>>, kk: nat)
    requires 0 < z.layers && Sized(z, first) && kk < |first|
    ensures PrologueSteps(net, z, if |first| < 2 then |first| else 2, first)[kk]
         == Expected(net, z, |first|, first[kk], 0, 0, kk)
  {
    assert PrologueSteps(net, z, 0, first) == first;
    if |first| >= 2 {
      var one := PrologueSteps(net, z, 1, first);
      assert PrologueSteps(net, z, 2, first) == one[1 := Started(net, 0, one[1])];
    }
  }

  /** The schedule keeps every micro-batch where it must be. */
  lemma {:induction false} ScheduledAsExpected<V>(net: Net<V>, z: Sizes, i: nat, k: nat, first: seq<Progress<V>>,
      kk: nat)
    requires i < z.layers && k <= |first| && Sized(z, first) && kk < |first|
    ensures Scheduled(net, z, i, k, first)[kk] == Expected(net, z, |first|, first[kk], i, k, kk)
    decreases i, k
  {
    if k > 0 {
      ScheduledAsExpected(net, z, i, k - 1, first, kk);
      ExpectedStep(net, z, i, k - 1, kk, Scheduled(net, z, i, k - 1, first), first[kk]);
    } else if i > 0 {
      ScheduledAsExpected(net, z, i - 1, |first|, first, kk);
    } else {
      PrologueAsExpected(net, z, first, kk);
    }
  }

  /** At the end of the schedule every micro-batch has gone through all layers. */
  lemma ScheduledToTheEnd<V>(net: Net<V>, z: Sizes, first: seq<Progress<V>>, kk: nat)
    requires 0 < z.layers && Sized(z, first) && kk < |first|
    ensures Scheduled(net, z, z.layers - 1, |first|, first)[kk]
         == PipelineLayers(net, z, kk, z.layers, |first| > 2, first[kk])
  {
    ScheduledAsExpected(net, z, z.layers - 1, |first|, first, kk);
  }
}
