/**
 Where the keys and values of a request live: two lines on the GPU during prefill, a flat pool on the
 CPU afterwards. Every request must see one append-only list, whatever the others do.
*/
module KvLayout {
  import opened Basics
  import opened MicroBatches

  // ------------------------------------------------------------------------------ the addresses

  /** Prompt lengths by micro-batch and request, room for generated tokens, size of a cache line. */
  datatype Layout = Layout(lens: seq<seq<nat>>, gen: nat, line: nat)

  /** Where request `i` of a micro-batch starts within its line. */
  function Offset(lens: seq<nat>, gen: nat, i: nat): nat
    requires i <= |lens|
  {
    if i == 0 then 0 else Offset(lens, gen, i - 1) + lens[i - 1] + gen
  }

  /** Where the first `n` requests of a micro-batch laid out from `base` start ... */
  function Starts(lens: seq<nat>, gen: nat, base: nat, n: nat): (r: seq<nat>)
    requires n <= |lens|
    ensures |r| == n && forall i {:trigger r[i]} :: 0 <= i < n ==> r[i] == base + Offset(lens, gen, i)
  {
    if n == 0 then [] else Starts(lens, gen, base, n - 1) + [base + Offset(lens, gen, n - 1)]
  }

  /** ... and where their last token is once `t` tokens were generated. */
  function LastLocs(lens: seq<nat>, gen: nat, base: nat, t: nat, n: nat): (r: seq<int>)
    requires n <= |lens|
    ensures |r| == n && forall i {:trigger r[i]} :: 0 <= i < n ==> r[i] == base + Offset(lens, gen, i) + lens[i] - 1 + t
  {
    if n == 0 then []
    else LastLocs(lens, gen, base, t, n - 1) + [base + Offset(lens, gen, n - 1) + lens[n - 1] - 1 + t]
  }

  ghost predicate Fitting(l: Layout) {
    forall k :: 0 <= k < |l.lens| ==> Offset(l.lens[k], l.gen, |l.lens[k]|) <= l.line
  }

  function Start(l: Layout, k: nat, i: nat): nat
    requires k < |l.lens| && i < |l.lens[k]|
  {
    Times(k, l.line) + Offset(l.lens[k], l.gen, i)
  }

  lemma {:induction false} OffsetsApart(lens: seq<nat>, gen: nat, i: nat, j: nat)
    requires i < j <= |lens|
    ensures Offset(lens, gen, i) + lens[i] + gen <= Offset(lens, gen, j)
  {
    if i + 1 < j {
      OffsetsApart(lens, gen, i, j - 1);
    }
  }

  /** The region of a request stays within the line of its micro-batch. */
  lemma RegionInLine(l: Layout, k: nat, i: nat)
    requires Fitting(l) && k < |l.lens| && i < |l.lens[k]|
    ensures Times(k, l.line) <= Start(l, k, i)
    ensures Start(l, k, i) + l.lens[k][i] + l.gen <= Times(k + 1, l.line)
  {
    OffsetsApart(l.lens[k], l.gen, i, |l.lens[k]|);
  }

  /** The regions of different requests, of the same or of different micro-batches, do not overlap. */
  lemma RegionsApart(l: Layout, k: nat, i: nat, m: nat, j: nat)
    requires Fitting(l) && k < |l.lens| && i < |l.lens[k]| && m < |l.lens| && j < |l.lens[m]|
    requires (k, i) != (m, j)
    ensures Start(l, k, i) + l.lens[k][i] + l.gen <= Start(l, m, j)
         || Start(l, m, j) + l.lens[m][j] + l.gen <= Start(l, k, i)
  {
    RegionInLine(l, k, i);
    RegionInLine(l, m, j);
    if k < m {
      TimesGrows(k + 1, m, l.line);
    } else if m < k {
      TimesGrows(m + 1, k, l.line);
    } else if i < j {
      OffsetsApart(l.lens[k], l.gen, i, j);
    } else {
      OffsetsApart(l.lens[k], l.gen, j, i);
    }
  }

  function PromptLens(p: Partition): (r: seq<nat>)
    ensures |r| == |p| && forall i :: 0 <= i < |p| ==> r[i] == p[i].promptLen
  {
    seq(|p|, i requires 0 <= i < |p| => p[i].promptLen)
  }

  lemma {:induction false} OffsetOfPrefix(lens: seq<nat>, gen: nat, i: nat, n: nat)
    requires i <= n <= |lens|
    ensures Offset(lens[..n], gen, i) == Offset(lens, gen, i)
  {
    if i > 0 {
      OffsetOfPrefix(lens, gen, i - 1, n);
    }
  }

  /** What the packer admits fits a line, since prompts only get shorter after they were measured. */
  lemma {:induction false} AdmittedFits(limits: Limits, p: Partition)
    requires forall i :: 0 <= i < |p| ==> p[i].promptLen <= p[i].inputLen
    ensures Offset(PromptLens(p), limits.genLen, |p|) <= Demand(limits, p)
  {
    if p != [] {
      var n := |p| - 1;
      AdmittedFits(limits, p[..n]);
      assert PromptLens(p)[..n] == PromptLens(p[..n]);
      OffsetOfPrefix(PromptLens(p), limits.genLen, n, n);
    }
  }

  lemma {:induction false} FlatMember(ps: seq<Partition>, k: nat, i: nat)
    requires k < |ps| && i < |ps[k]|
    ensures ps[k][i] in Flat(ps)
  {
    if k < |ps| - 1 {
      FlatMember(ps[..|ps| - 1], k, i);
    }
  }

  function LayoutOf(limits: Limits, mbs: seq<Partition>): (l: Layout)
    ensures |l.lens| == |mbs| && forall k {:trigger l.lens[k]} :: 0 <= k < |mbs| ==> l.lens[k] == PromptLens(mbs[k])
  {
    Layout(seq(|mbs|, k requires 0 <= k < |mbs| => PromptLens(mbs[k])), limits.genLen, limits.line)
  }

  /** Whatever is queued, the micro-batches of the packer can be laid out without leaving their lines. */
  lemma PackedFits(limits: Limits, queue: seq<Req>)
    requires limits.ubs > 0 && forall r :: r in queue ==> r.promptLen <= r.inputLen
    ensures var p := Pack(limits, Sorted(queue));
            Fitting(LayoutOf(limits, p.closed + p.open))
  {
    var p := Pack(limits, Sorted(queue));
    var mbs := p.closed + p.open;
    MicroBatchesRight(limits, queue);
    forall k | 0 <= k < |mbs|
      ensures Offset(PromptLens(mbs[k]), limits.genLen, |mbs[k]|) <= limits.line
    {
      forall i | 0 <= i < |mbs[k]|
        ensures mbs[k][i].promptLen <= mbs[k][i].inputLen
      {
        FlatMember(mbs, k, i);
        assert mbs[k][i] in multiset(Flat(mbs)) + multiset(p.aborted);
        assert mbs[k][i] in multiset(queue);
      }
      AdmittedFits(limits, mbs[k]);
    }
  }

  /** The buffers of the context: two lines on the GPU, and a CPU pool with exactly one line per micro-batch. */
  lemma ContextSizes(ubs: nat, nUb: nat, avgPrompt: nat, genLen: nat)
    requires ubs > 0 && avgPrompt + genLen > 0
    ensures var gpuSize, cpuSize := 2 * (ubs * (avgPrompt + genLen)), nUb * ubs * (avgPrompt + genLen);
            var line := gpuSize / 2;
            line == ubs * (avgPrompt + genLen) > 0 && cpuSize / line * line == Times(nUb, line)
  {
    var line := ubs * (avgPrompt + genLen);
    assert line > 0 by {
      AtLeastOnce(ubs, avgPrompt + genLen);
    }
    assert nUb * ubs * (avgPrompt + genLen) == nUb * line;
    DivMod(line, nUb, 0);
    TimesIsProduct(nUb, line);
  }

  // --------------------------------------------------------------------------- indexed assignment

  /** `dst[loc[j]] := val[j]` for all `j`, in order. */
  function Scatter<V>(dst: seq<V>, loc: seq<int>, val: seq<V>): (r: seq<V>)
    requires |loc| == |val| && forall j :: 0 <= j < |loc| ==> 0 <= loc[j] < |dst|
    ensures |r| == |dst|
  {
    if loc == [] then dst
    else
      var n := |loc| - 1;
      Scatter(dst, loc[..n], val[..n])[loc[n] := val[n]]
  }

  lemma {:induction false} ScatterMisses<V>(dst: seq<V>, loc: seq<int>, val: seq<V>, x: nat)
    requires |loc| == |val| && forall j :: 0 <= j < |loc| ==> 0 <= loc[j] < |dst|
    requires x < |dst| && forall j :: 0 <= j < |loc| ==> loc[j] != x
    ensures Scatter(dst, loc, val)[x] == dst[x]
  {
    if loc != [] {
      ScatterMisses(dst, loc[..|loc| - 1], val[..|val| - 1], x);
    }
  }

  lemma {:induction false} ScatterHits<V>(dst: seq<V>, loc: seq<int>, val: seq<V>, j: nat)
    requires |loc| == |val| && forall j :: 0 <= j < |loc| ==> 0 <= loc[j] < |dst|
    requires j < |loc| && forall m :: j < m < |loc| ==> loc[m] != loc[j]
    ensures Scatter(dst, loc, val)[loc[j]] == val[j]
  {
    var n := |loc| - 1;
    if j < n {
      ScatterHits(dst, loc[..n], val[..n], j);
    }
  }

  /** The GPU addresses of a micro-batch: its prompts one after the other, each followed by a gap. */
  function PromptLocs(lens: seq<nat>, gen: nat, base: nat, n: nat): (r: seq<int>)
    requires n <= |lens|
  {
    if n == 0 then []
    else PromptLocs(lens, gen, base, n - 1) + seq(lens[n - 1], j => base + Offset(lens, gen, n - 1) + j)
  }

  /** The keys and values the model hands over for a micro-batch: the prompts one after the other. */
  function Joined<V>(prompts: seq<seq<V>>): seq<V> {
    if prompts == [] then [] else Joined(prompts[..|prompts| - 1]) + prompts[|prompts| - 1]
  }

  ghost predicate LensOf<V>(prompts: seq<seq<V>>, lens: seq<nat>) {
    |prompts| == |lens| && forall i {:trigger prompts[i]} :: 0 <= i < |lens| ==> |prompts[i]| == lens[i]
  }

  lemma {:induction false} PromptLocsInRange<V>(prompts: seq<seq<V>>, lens: seq<nat>, gen: nat, base: nat, n: nat)
    requires n <= |lens| && LensOf(prompts, lens)
    ensures |PromptLocs(lens, gen, base, n)| == |Joined(prompts[..n])|
    ensures forall j :: 0 <= j < |PromptLocs(lens, gen, base, n)| ==>
              base <= PromptLocs(lens, gen, base, n)[j] < base + Offset(lens, gen, n)
  {
    if n > 0 {
      PromptLocsInRange(prompts, lens, gen, base, n - 1);
      assert prompts[..n][..n - 1] == prompts[..n - 1];
    }
  }

  /** Scattering the joined prompts puts each one where its request starts. */
  lemma {:induction false} PromptLands<V>(dst: seq<V>, prompts: seq<seq<V>>, lens: seq<nat>, gen: nat, base: nat,
      n: nat, i: nat, x: nat)
    requires i < n <= |lens| && LensOf(prompts, lens) && base + Offset(lens, gen, n) <= |dst| && x < lens[i]
    requires |PromptLocs(lens, gen, base, n)| == |Joined(prompts[..n])|
    requires forall j :: 0 <= j < |PromptLocs(lens, gen, base, n)| ==> 0 <= PromptLocs(lens, gen, base, n)[j] < |dst|
    ensures base + Offset(lens, gen, i) + x < |dst|
    ensures Scatter(dst, PromptLocs(lens, gen, base, n), Joined(prompts[..n]))[base + Offset(lens, gen, i) + x]
            == prompts[i][x]
  {
    PlaceOf(prompts, lens, gen, base, n, i, x);
    var j := |PromptLocs(lens, gen, base, i)| + x;
    PromptLocsIncrease(prompts, lens, gen, base, n);
    ScatterHits(dst, PromptLocs(lens, gen, base, n), Joined(prompts[..n]), j);
  }

  /** Element `x` of prompt `i` in the joined prompts, and its address. */
  lemma {:induction false} PlaceOf<V>(prompts: seq<seq<V>>, lens: seq<nat>, gen: nat, base: nat, n: nat, i: nat, x: nat)
    requires i < n <= |lens| && LensOf(prompts, lens) && x < lens[i]
    ensures var j := |PromptLocs(lens, gen, base, i)| + x;
            && j < |PromptLocs(lens, gen, base, n)| == |Joined(prompts[..n])|
            && PromptLocs(lens, gen, base, n)[j] == base + Offset(lens, gen, i) + x
            && Joined(prompts[..n])[j] == prompts[i][x]
  {
    PromptLocsInRange(prompts, lens, gen, base, n);
    PromptLocsInRange(prompts, lens, gen, base, n - 1);
    assert prompts[..n][..n - 1] == prompts[..n - 1];
    if i < n - 1 {
      PlaceOf(prompts, lens, gen, base, n - 1, i, x);
    }
  }

  lemma {:induction false} PromptLocsIncrease<V>(prompts: seq<seq<V>>, lens: seq<nat>, gen: nat, base: nat, n: nat)
    requires n <= |lens| && LensOf(prompts, lens)
    ensures forall a, b :: 0 <= a < b < |PromptLocs(lens, gen, base, n)| ==>
              PromptLocs(lens, gen, base, n)[a] < PromptLocs(lens, gen, base, n)[b]
  {
    if n > 0 {
      PromptLocsIncrease(prompts, lens, gen, base, n - 1);
      PromptLocsInRange(prompts, lens, gen, base, n - 1);
    }
  }
}
