/**
 The pool of keys and values and the per-batch bookkeeping that addresses it, from prefill through
 any number of decode steps.
*/
module KvPool {
  import opened Basics
  import opened KvLayout

  class TokenToKVPool<V(!new)> {
    const line: nat
    const cpuSize: nat
    var kvData: seq<V>
    var kvDataCpu: seq<seq<V>>
    var curStartLoc: nat
    var curCl: nat

    ghost predicate Valid()
      reads this
    {
      && line > 0 && |kvData| == 2 * line && curCl < 2
      && forall i :: 0 <= i < |kvDataCpu| ==> |kvDataCpu[i]| == cpuSize
    }

    /** The CPU pool is cut to a whole number of lines. */
    constructor (gpuSize: nat, cpuSize: nat, gpu: seq<V>, cpu: seq<seq<V>>)
      requires gpuSize >= 2 && |gpu| == 2 * (gpuSize / 2)
      requires forall i :: 0 <= i < |cpu| ==> |cpu[i]| == cpuSize / (gpuSize / 2) * (gpuSize / 2)
      ensures Valid() && curStartLoc == 0 && curCl == 0
      ensures line == gpuSize / 2 && this.cpuSize == cpuSize / line * line && |kvDataCpu| == |cpu|
    {
      this.line := gpuSize / 2;
      this.cpuSize := cpuSize / (gpuSize / 2) * (gpuSize / 2);
      this.kvData, this.kvDataCpu := gpu, cpu;
      this.curStartLoc, this.curCl := 0, 0;
    }

    /** The next line of the CPU pool, and the GPU line it maps to. */
    method AllocCpu() returns (startLoc: nat, gpuStart: nat, clIdx: nat)
      requires Valid()
      modifies `curStartLoc, `curCl
      ensures Valid() && startLoc == old(curStartLoc) && curStartLoc == startLoc + line
      ensures clIdx == old(curCl) && curCl == (clIdx + 1) % 2 && gpuStart == if clIdx == 0 then 0 else line
    {
      startLoc := curStartLoc;
      curStartLoc := curStartLoc + line;
      clIdx := curCl;
      curCl := (curCl + 1) % 2;
      gpuStart := clIdx * line;
    }

    /** Copies a GPU line, or its used part, to its place in the CPU pool. */
    method Store(dstStart: nat, size: nat, layer: nat)
      requires Valid() && layer < |kvDataCpu| && dstStart + size <= cpuSize
      requires Remainder(dstStart, 2 * line) + size <= 2 * line
      modifies `kvDataCpu
      ensures Valid()
      ensures var src := Remainder(dstStart, 2 * line);
              kvDataCpu == old(kvDataCpu)[layer := Blit(old(kvDataCpu)[layer], dstStart, kvData[src..src + size])]
    {
      var srcStart := Remainder(dstStart, 2 * line);
      kvDataCpu := kvDataCpu[layer := Blit(kvDataCpu[layer], dstStart, kvData[srcStart..srcStart + size])];
    }

    /** Prefill attention writes its keys and values to the GPU lines. */
    method StoreKvCache(loc: seq<int>, kv: seq<V>)
      requires Valid() && |loc| == |kv| && forall j :: 0 <= j < |loc| ==> 0 <= loc[j] < |kvData|
      modifies `kvData
      ensures Valid() && kvData == Scatter(old(kvData), loc, kv)
    {
      for j := 0 to |loc|
        invariant |kvData| == old(|kvData|) && kvData == Scatter(old(kvData), loc[..j], kv[..j])
      {
        kvData := kvData[loc[j] := kv[j]];
        assert loc[..j + 1][..j] == loc[..j] && kv[..j + 1][..j] == kv[..j];
      }
      assert loc[..|loc|] == loc && kv[..|kv|] == kv;
    }

    /** Decode attention writes one position per request to the CPU pool. */
    method StoreKvCacheCpu(layer: nat, loc: seq<int>, kv: seq<V>)
      requires Valid() && layer < |kvDataCpu|
      requires |loc| == |kv| && forall j :: 0 <= j < |loc| ==> 0 <= loc[j] < cpuSize
      modifies `kvDataCpu
      ensures Valid() && kvDataCpu == old(kvDataCpu)[layer := Scatter(old(kvDataCpu)[layer], loc, kv)]
    {
      var mem := kvDataCpu[layer];
      for j := 0 to |loc|
        invariant |mem| == cpuSize && mem == Scatter(kvDataCpu[layer], loc[..j], kv[..j])
      {
        mem := mem[loc[j] := kv[j]];
        assert loc[..j + 1][..j] == loc[..j] && kv[..j + 1][..j] == kv[..j];
      }
      assert loc[..|loc|] == loc && kv[..|kv|] == kv;
      kvDataCpu := kvDataCpu[layer := mem];
    }

    method Clear()
      modifies `curStartLoc, `curCl
      ensures curStartLoc == 0 && curCl == 0
    {
      curStartLoc, curCl := 0, 0;
    }
  }

  /** The `n`-th CPU line maps to GPU line `n % 2`. */
  lemma {:induction false} LineOfStart(n: nat, line: nat)
    requires line > 0
    ensures Remainder(Times(n, line), 2 * line) == if n % 2 == 0 then 0 else line
  {
    if n >= 2 {
      LineOfStart(n - 2, line);
    }
  }

  /** The addresses of a batch, with running offsets. */
  method LayOut(lens: seq<nat>, maxOutputLen: nat, cpuStart: nat, gpuStart: nat)
    returns (outCacheLoc: seq<int>, decodeOutCacheLoc: seq<int>, startLoc: seq<nat>)
    ensures outCacheLoc == PromptLocs(lens, maxOutputLen, gpuStart, |lens|)
    ensures decodeOutCacheLoc == LastLocs(lens, maxOutputLen, cpuStart, 0, |lens|)
    ensures startLoc == Starts(lens, maxOutputLen, cpuStart, |lens|)
  {
    outCacheLoc, decodeOutCacheLoc, startLoc := [], [], [];
    var pt := 0;
    for i := 0 to |lens|
      invariant pt == Offset(lens, maxOutputLen, i)
      invariant outCacheLoc == PromptLocs(lens, maxOutputLen, gpuStart, i)
      invariant decodeOutCacheLoc == LastLocs(lens, maxOutputLen, cpuStart, 0, i)
      invariant startLoc == Starts(lens, maxOutputLen, cpuStart, i)
    {
      var seqLen := lens[i];
      outCacheLoc := outCacheLoc + seq(seqLen, j => gpuStart + pt + j);
      startLoc := startLoc + [cpuStart + pt];
      decodeOutCacheLoc := decodeOutCacheLoc + [cpuStart + pt + seqLen - 1];
      pt := pt + seqLen + maxOutputLen;
    }
  }

  class Batch {
    const lens: seq<nat>   // tokens of the prompts
    var cpuStart: nat
    var cacheLineIdx: nat
    var outCacheLoc: seq<int>
    var decodeOutCacheLoc: seq<int>
    var startLoc: seq<nat>
    var seqLens: seq<nat>
    var kvPt: int

    constructor (lens: seq<nat>)
      ensures this.lens == lens
    {
      this.lens := lens;
      cpuStart, cacheLineIdx, kvPt := 0, 0, 0;
      outCacheLoc, decodeOutCacheLoc, startLoc, seqLens := [], [], [], [];
    }

    /** The addresses of this batch, laid out from `base`, after `t` decode steps were prepared. */
    ghost predicate LaidOut(base: nat, gpuBase: nat, gen: nat, t: nat)
      reads this
    {
      var n := |lens|;
      && n > 0 && cpuStart == base
      && startLoc == Starts(lens, gen, base, n)
      && seqLens == seq(n, i requires 0 <= i < n => lens[i] + t)
      && decodeOutCacheLoc == LastLocs(lens, gen, base, t, n)
      && kvPt == base + Offset(lens, gen, n - 1) + lens[n - 1]
      && outCacheLoc == PromptLocs(lens, gen, gpuBase, n)
    }

    method PrepareForPrefill<V(!new)>(pool: TokenToKVPool<V>, maxOutputLen: nat)
      requires pool.Valid() && lens != []
      modifies this, pool`curStartLoc, pool`curCl
      ensures pool.Valid() && pool.curStartLoc == old(pool.curStartLoc) + pool.line
      ensures pool.curCl == (old(pool.curCl) + 1) % 2 && cacheLineIdx == old(pool.curCl)
      ensures LaidOut(old(pool.curStartLoc), if old(pool.curCl) == 0 then 0 else pool.line, maxOutputLen, 0)
    {
      var start, gpuStart, cl := pool.AllocCpu();
      var outLocs, lastLocs, starts := LayOut(lens, maxOutputLen, start, gpuStart);
      cpuStart, cacheLineIdx := start, cl;
      outCacheLoc, decodeOutCacheLoc, startLoc, seqLens := outLocs, lastLocs, starts, lens;
      kvPt := decodeOutCacheLoc[|decodeOutCacheLoc| - 1] + 1;
    }

    /** Every sequence gets one token longer. */
    method PrepareForDecode()
      modifies `seqLens, `decodeOutCacheLoc
      ensures seqLens == seq(|old(seqLens)|, i requires 0 <= i < |old(seqLens)| => old(seqLens)[i] + 1)
      ensures |decodeOutCacheLoc| == |old(decodeOutCacheLoc)|
      ensures forall i :: 0 <= i < |decodeOutCacheLoc| ==> decodeOutCacheLoc[i] == old(decodeOutCacheLoc)[i] + 1
    {
      var was, locs := seqLens, decodeOutCacheLoc;
      seqLens := seq(|was|, i requires 0 <= i < |was| => was[i] + 1);
      decodeOutCacheLoc := seq(|locs|, i requires 0 <= i < |locs| => locs[i] + 1);
    }

    method OffloadKvCache<V(!new)>(pool: TokenToKVPool<V>, layer: nat)
      requires pool.Valid() && layer < |pool.kvDataCpu| && cpuStart <= kvPt <= pool.cpuSize
      requires Remainder(cpuStart, 2 * pool.line) + (kvPt - cpuStart) <= 2 * pool.line
      modifies pool`kvDataCpu
      ensures pool.Valid()
      ensures var src, size := Remainder(cpuStart, 2 * pool.line), kvPt - cpuStart;
              pool.kvDataCpu == old(pool.kvDataCpu)[layer :=
                Blit(old(pool.kvDataCpu)[layer], cpuStart, pool.kvData[src..src + size])]
    {
      var storeSize := kvPt - cpuStart;
      pool.Store(cpuStart, storeSize, layer);
    }
  }

  // ---------------------------------------------------------------------- append-only lists

  /** Every request of micro-batch `k` finds its list in its region. */
  ghost predicate Lists<V(!new)>(l: Layout, mem: seq<V>, k: nat, want: seq<seq<V>>) {
    && k < |l.lens| && |want| == |l.lens[k]|
    && forall i {:trigger ListOf(l, mem, k, i, want[i])} :: 0 <= i < |want| ==> ListOf(l, mem, k, i, want[i])
  }

  ghost predicate ListOf<V(!new)>(l: Layout, mem: seq<V>, k: nat, i: nat, list: seq<V>) {
    && k < |l.lens| && i < |l.lens[k]|
    && ListAt(mem, Start(l, k, i), list) && |list| <= l.lens[k][i] + l.gen
  }

  ghost predicate ListAt<V(!new)>(mem: seq<V>, at: nat, want: seq<V>) {
    at + |want| <= |mem| && mem[at..at + |want|] == want
  }

  function Extended<V>(want: seq<seq<V>>, vals: seq<V>): (r: seq<seq<V>>)
    requires |want| == |vals|
    ensures |r| == |want|
  {
    seq(|want|, i requires 0 <= i < |want| => want[i] + [vals[i]])
  }

  /** One region under a scatter that hits it just behind its list, and otherwise misses it. */
  lemma ListGrows<V(!new)>(mem: seq<V>, at: nat, want: seq<V>, locs: seq<int>, vals: seq<V>, i: nat)
    requires ListAt(mem, at, want) && i < |locs| == |vals| && locs[i] == at + |want| < |mem|
    requires forall j :: 0 <= j < |locs| ==> 0 <= locs[j] < |mem|
    requires forall j :: 0 <= j < |locs| && j != i ==> locs[j] < at || at + |want| < locs[j]
    ensures ListAt(Scatter(mem, locs, vals), at, want + [vals[i]])
  {
    forall j | 0 <= j < |locs|
      ensures locs[j] < at || at + |want| <= locs[j]
      ensures j != i ==> locs[j] != locs[i]
    {
    }
    var mem1 := Scatter(mem, locs, vals);
    ListStays(mem, at, want, locs, vals);
    ScatterHits(mem, locs, vals, i);
    ListMore(mem1, at, want, vals[i]);
  }

  lemma ListMore<V(!new)>(mem: seq<V>, at: nat, want: seq<V>, v: V)
    requires ListAt(mem, at, want) && at + |want| < |mem| && mem[at + |want|] == v
    ensures ListAt(mem, at, want + [v])
  {
    assert mem[at..at + |want| + 1] == mem[at..at + |want|] + [v];
  }

  /** Position `i` of `locs` is the one behind the list of request `i`, still within its region. */
  ghost predicate Behind<V(!new)>(l: Layout, k: nat, want: seq<seq<V>>, locs: seq<int>) {
    && k < |l.lens| && |locs| == |want| == |l.lens[k]|
    && forall i {:trigger want[i]} {:trigger locs[i]} :: 0 <= i < |want| ==>
         locs[i] == Start(l, k, i) + |want[i]| && |want[i]| < l.lens[k][i] + l.gen
  }

  lemma BehindInMemory<V(!new)>(l: Layout, k: nat, want: seq<seq<V>>, locs: seq<int>, i: nat)
    requires Fitting(l) && Behind(l, k, want, locs) && i < |locs|
    ensures Start(l, k, i) <= locs[i] < Start(l, k, i) + l.lens[k][i] + l.gen
    ensures 0 <= locs[i] < Times(k + 1, l.line)
  {
    RegionInLine(l, k, i);
    assert |want[i]| >= 0;
  }

  /** Writing behind the lists of all requests of micro-batch `k` appends to each ... */
  lemma DecodeAppends<V(!new)>(l: Layout, mem: seq<V>, k: nat, want: seq<seq<V>>, locs: seq<int>, vals: seq<V>)
    requires Fitting(l) && Lists(l, mem, k, want) && Behind(l, k, want, locs) && |vals| == |want|
    requires Times(k + 1, l.line) <= |mem|
    ensures forall j :: 0 <= j < |locs| ==> 0 <= locs[j] < |mem|
    ensures Lists(l, Scatter(mem, locs, vals), k, Extended(want, vals))
  {
    forall j | 0 <= j < |locs|
      ensures 0 <= locs[j] < |mem|
    {
      BehindInMemory(l, k, want, locs, j);
    }
    forall i | 0 <= i < |want|
      ensures ListOf(l, Scatter(mem, locs, vals), k, i, want[i] + [vals[i]])
    {
      assert ListOf(l, mem, k, i, want[i]);
      DecodeAppendsOne(l, mem, k, want, locs, vals, i);
    }
  }

  lemma DecodeAppendsOne<V(!new)>(l: Layout, mem: seq<V>, k: nat, want: seq<seq<V>>, locs: seq<int>, vals: seq<V>,
                                  i: nat)
    requires Fitting(l) && Behind(l, k, want, locs) && |vals| == |want| && i < |want| && ListOf(l, mem, k, i, want[i])
    requires forall j :: 0 <= j < |locs| ==> 0 <= locs[j] < |mem|
    ensures ListOf(l, Scatter(mem, locs, vals), k, i, want[i] + [vals[i]])
  {
    forall j | 0 <= j < |want| && j != i
      ensures locs[j] < Start(l, k, i) || Start(l, k, i) + |want[i]| < locs[j]
    {
      RegionsApart(l, k, i, k, j);
      BehindInMemory(l, k, want, locs, j);
    }
    ListGrows(mem, Start(l, k, i), want[i], locs, vals, i);
  }

  /** ... and leaves the lists of every other micro-batch alone. */
  lemma DecodeKeepsOthers<V(!new)>(l: Layout, mem: seq<V>, k: nat, behind: seq<seq<V>>, locs: seq<int>, vals: seq<V>,
                                   m: nat, want: seq<seq<V>>)
    requires Fitting(l) && Lists(l, mem, m, want) && m != k && Behind(l, k, behind, locs) && |locs| == |vals|
    requires forall j :: 0 <= j < |locs| ==> 0 <= locs[j] < |mem|
    ensures Lists(l, Scatter(mem, locs, vals), m, want)
  {
    forall i | 0 <= i < |want|
      ensures ListOf(l, Scatter(mem, locs, vals), m, i, want[i])
    {
      assert ListOf(l, mem, m, i, want[i]);
      DecodeKeepsOne(l, mem, k, behind, locs, vals, m, i, want[i]);
    }
  }

  lemma DecodeKeepsOne<V(!new)>(l: Layout, mem: seq<V>, k: nat, behind: seq<seq<V>>, locs: seq<int>, vals: seq<V>,
                                m: nat, i: nat, list: seq<V>)
    requires Fitting(l) && ListOf(l, mem, m, i, list) && m != k && Behind(l, k, behind, locs) && |locs| == |vals|
    requires forall j :: 0 <= j < |locs| ==> 0 <= locs[j] < |mem|
    ensures ListOf(l, Scatter(mem, locs, vals), m, i, list)
  {
    forall j | 0 <= j < |locs|
      ensures locs[j] < Start(l, m, i) || Start(l, m, i) + |list| <= locs[j]
    {
      RegionsApart(l, m, i, k, j);
      BehindInMemory(l, k, behind, locs, j);
    }
    ListStays(mem, Start(l, m, i), list, locs, vals);
  }

  lemma ListStays<V(!new)>(mem: seq<V>, at: nat, want: seq<V>, locs: seq<int>, vals: seq<V>)
    requires ListAt(mem, at, want) && |locs| == |vals|
    requires forall j :: 0 <= j < |locs| ==> 0 <= locs[j] < |mem|
    requires forall j :: 0 <= j < |locs| ==> locs[j] < at || at + |want| <= locs[j]
    ensures ListAt(Scatter(mem, locs, vals), at, want)
  {
    forall x | at <= x < at + |want|
      ensures Scatter(mem, locs, vals)[x] == want[x - at]
    {
      ScatterMisses(mem, locs, vals, x);
      assert mem[at..at + |want|][x - at] == mem[x];
    }
  }

  /** The positions a batch writes in decode step `t` are those behind the lists of `t` generated tokens. */
  lemma LastLocsBehind<V(!new)>(l: Layout, k: nat, want: seq<seq<V>>, t: nat)
    requires k < |l.lens| && |want| == |l.lens[k]| && t < l.gen
    requires forall i {:trigger want[i]} :: 0 <= i < |want| ==> |want[i]| == l.lens[k][i] + t
    ensures Behind(l, k, want, LastLocs(l.lens[k], l.gen, Times(k, l.line), t + 1, |l.lens[k]|))
  {
    var locs := LastLocs(l.lens[k], l.gen, Times(k, l.line), t + 1, |l.lens[k]|);
    forall i | 0 <= i < |want|
      ensures locs[i] == Start(l, k, i) + |want[i]| && |want[i]| < l.lens[k][i] + l.gen
    {
    }
  }

  /** Used part of a line: up to the end of the last prompt. */
  function UsedRows(lens: seq<nat>, gen: nat): nat
    requires lens != []
  {
    Offset(lens, gen, |lens| - 1) + lens[|lens| - 1]
  }

  /** The GPU line of a micro-batch after prefill attention, up to the end of the last prompt. */
  function FilledLine<V(!new)>(gpu: seq<V>, lens: seq<nat>, gen: nat, base: nat, prompts: seq<seq<V>>): (r: seq<V>)
    requires lens != [] && LensOf(prompts, lens) && base + Offset(lens, gen, |lens|) <= |gpu|
    ensures |r| == UsedRows(lens, gen)
  {
    PromptsInRange(gpu, lens, gen, base, prompts);
    Scatter(gpu, PromptLocs(lens, gen, base, |lens|), Joined(prompts))[base..base + UsedRows(lens, gen)]
  }

  lemma PromptsInRange<V(!new)>(gpu: seq<V>, lens: seq<nat>, gen: nat, base: nat, prompts: seq<seq<V>>)
    requires lens != [] && LensOf(prompts, lens) && base + Offset(lens, gen, |lens|) <= |gpu|
    ensures |PromptLocs(lens, gen, base, |lens|)| == |Joined(prompts)|
    ensures forall j :: 0 <= j < |PromptLocs(lens, gen, base, |lens|)| ==>
            0 <= PromptLocs(lens, gen, base, |lens|)[j] < |gpu|
    ensures UsedRows(lens, gen) <= Offset(lens, gen, |lens|)
  {
    assert prompts[..|lens|] == prompts;
    PromptLocsInRange(prompts, lens, gen, base, |lens|);
  }

  lemma FilledAt<V(!new)>(gpu: seq<V>, lens: seq<nat>, gen: nat, base: nat, prompts: seq<seq<V>>, i: nat, x: nat)
    requires i < |lens| && LensOf(prompts, lens) && base + Offset(lens, gen, |lens|) <= |gpu| && x < lens[i]
    ensures Offset(lens, gen, i) + x < UsedRows(lens, gen)
    ensures FilledLine(gpu, lens, gen, base, prompts)[Offset(lens, gen, i) + x] == prompts[i][x]
  {
    PromptsInRange(gpu, lens, gen, base, prompts);
    WithinUsed(lens, gen, i);
    assert prompts[..|lens|] == prompts;
    PromptLands(gpu, prompts, lens, gen, base, |lens|, i, x);
  }

  lemma WithinUsed(lens: seq<nat>, gen: nat, i: nat)
    requires i < |lens|
    ensures Offset(lens, gen, i) + lens[i] <= UsedRows(lens, gen)
  {
    if i < |lens| - 1 {
      OffsetsApart(lens, gen, i, |lens| - 1);
    }
  }

  lemma BlitLands<V(!new)>(mem: seq<V>, at: nat, src: seq<V>, off: nat, prompt: seq<V>)
    requires at + |src| <= |mem| && off + |prompt| <= |src|
    requires forall x :: 0 <= x < |prompt| ==> src[off + x] == prompt[x]
    ensures ListAt(Blit(mem, at, src), at + off, prompt)
  {
    forall x | 0 <= x < |prompt|
      ensures Blit(mem, at, src)[at + off..at + off + |prompt|][x] == prompt[x]
    {
      assert Blit(mem, at, src)[at + off + x] == src[off + x];
    }
  }

  /** Storing a line leaves the lists of every other micro-batch alone. */
  lemma StoreKeepsOthers<V(!new)>(l: Layout, mem: seq<V>, k: nat, src: seq<V>, m: nat, want: seq<seq<V>>)
    requires Fitting(l) && Lists(l, mem, m, want) && m != k && k < |l.lens|
    requires |src| <= l.line && Times(k + 1, l.line) <= |mem|
    ensures Lists(l, Blit(mem, Times(k, l.line), src), m, want)
  {
    forall i | 0 <= i < |want|
      ensures ListOf(l, Blit(mem, Times(k, l.line), src), m, i, want[i])
    {
      assert ListOf(l, mem, m, i, want[i]);
      RegionInLine(l, m, i);
      if m < k {
        TimesGrows(m + 1, k, l.line);
      } else {
        TimesGrows(k + 1, m, l.line);
      }
      BlitMisses(mem, Times(k, l.line), src, Start(l, m, i), want[i]);
    }
  }

  lemma BlitMisses<V(!new)>(mem: seq<V>, at: nat, src: seq<V>, a: nat, want: seq<V>)
    requires at + |src| <= |mem| && ListAt(mem, a, want) && (a + |want| <= at || at + |src| <= a)
    ensures ListAt(Blit(mem, at, src), a, want)
  {
    forall x | 0 <= x < |want|
      ensures Blit(mem, at, src)[a..a + |want|][x] == want[x]
    {
      assert mem[a..a + |want|][x] == mem[a + x];
    }
  }

  // ------------------------------------------------------------------------- prefill and decode

  /** All micro-batches from `from` to `to` find the lists of `want` in the memory of a layer. */
  ghost predicate LayerLists<V(!new)>(l: Layout, mem: seq<V>, from: nat, to: nat, want: seq<seq<seq<V>>>) {
    to <= |want| == |l.lens| && forall k {:trigger want[k]} :: from <= k < to ==> Lists(l, mem, k, want[k])
  }

  /** The GPU line of micro-batch `k`. */
  function GpuBase(l: Layout, k: nat): nat {
    if k % 2 == 0 then 0 else l.line
  }

  /** One more micro-batch has its prompts stored. */
  lemma PrefillStep<V(!new)>(l: Layout, mem: seq<V>, gpu: seq<V>, k: nat, want: seq<seq<seq<V>>>)
    requires Fitting(l) && LayerLists(l, mem, 0, k, want)
    requires k < |l.lens| && l.lens[k] != [] && LensOf(want[k], l.lens[k])
    requires |gpu| == 2 * l.line && Times(k + 1, l.line) <= |mem|
    ensures UsedRows(l.lens[k], l.gen) <= l.line
    ensures LayerLists(l, Blit(mem, Times(k, l.line), FilledLine(gpu, l.lens[k], l.gen, GpuBase(l, k), want[k])),
                       0, k + 1, want)
  {
    var src := FilledLine(gpu, l.lens[k], l.gen, GpuBase(l, k), want[k]);
    PromptsInRange(gpu, l.lens[k], l.gen, GpuBase(l, k), want[k]);
    forall m | 0 <= m < k
      ensures Lists(l, Blit(mem, Times(k, l.line), src), m, want[m])
    {
      StoreKeepsOthers(l, mem, k, src, m, want[m]);
    }
    forall i | 0 <= i < |l.lens[k]|
      ensures ListOf(l, Blit(mem, Times(k, l.line), src), k, i, want[k][i])
    {
      WithinUsed(l.lens[k], l.gen, i);
      forall x | 0 <= x < l.lens[k][i]
        ensures src[Offset(l.lens[k], l.gen, i) + x] == want[k][i][x]
      {
        FilledAt(gpu, l.lens[k], l.gen, GpuBase(l, k), want[k], i, x);
      }
      BlitLands(mem, Times(k, l.line), src, Offset(l.lens[k], l.gen, i), want[k][i]);
    }
  }

  /** Prefill attention of one layer for micro-batch `k`, and the store that follows it. */
  method StorePrompts<V(!new)>(pool: TokenToKVPool<V>, b: Batch, l: Layout, k: nat, layer: nat, prompts: seq<seq<V>>)
    requires pool.Valid() && pool.line == l.line && k < |l.lens| && Offset(l.lens[k], l.gen, |l.lens[k]|) <= l.line
    requires BatchReady(b, l, k, 0)
    requires layer < |pool.kvDataCpu| && Times(k + 1, l.line) <= pool.cpuSize && LensOf(prompts, l.lens[k])
    modifies pool`kvData, pool`kvDataCpu
    ensures pool.Valid()
    ensures pool.kvDataCpu == old(pool.kvDataCpu)[layer := Blit(old(pool.kvDataCpu)[layer], Times(k, l.line),
              FilledLine(old(pool.kvData), l.lens[k], l.gen, GpuBase(l, k), prompts))]
  {
    PromptsInRange(pool.kvData, l.lens[k], l.gen, GpuBase(l, k), prompts);
    BatchAddresses(b, l, k);
    pool.StoreKvCache(b.outCacheLoc, Joined(prompts));
    b.OffloadKvCache(pool, layer);
  }

  /** What the store of a batch that is ready for prefill moves, and where from. */
  lemma BatchAddresses(b: Batch, l: Layout, k: nat)
    requires BatchReady(b, l, k, 0) && l.line > 0
    ensures b.cpuStart == Times(k, l.line) && Remainder(b.cpuStart, 2 * l.line) == GpuBase(l, k)
    ensures b.kvPt - b.cpuStart == UsedRows(l.lens[k], l.gen)
  {
    LineOfStart(k, l.line);
  }

  method PrefillLayer<V(!new)>(pool: TokenToKVPool<V>, b: Batch, l: Layout, k: nat, layer: nat, prompts: seq<seq<V>>,
                               ghost want: seq<seq<seq<V>>>)
    requires pool.Valid() && pool.line == l.line && Fitting(l) && k < |l.lens| && BatchReady(b, l, k, 0)
    requires layer < |pool.kvDataCpu| && Times(|l.lens|, l.line) <= pool.cpuSize && LensOf(prompts, l.lens[k])
    requires LayerLists(l, pool.kvDataCpu[layer], 0, k, want) && want[k] == prompts
    modifies pool`kvData, pool`kvDataCpu
    ensures pool.Valid() && |pool.kvDataCpu| == old(|pool.kvDataCpu|)
    ensures LayerLists(l, pool.kvDataCpu[layer], 0, k + 1, want)
    ensures forall i :: 0 <= i < |pool.kvDataCpu| && i != layer ==> pool.kvDataCpu[i] == old(pool.kvDataCpu)[i]
  {
    TimesGrows(k + 1, |l.lens|, l.line);
    PrefillStep(l, pool.kvDataCpu[layer], pool.kvData, k, want);
    StorePrompts(pool, b, l, k, layer, prompts);
  }

  /** The positions that micro-batch `k` writes in the decode step after `t` others. */
  function Positions(l: Layout, k: nat, t: nat): (r: seq<int>)
    requires k < |l.lens|
    ensures |r| == |l.lens[k]|
  {
    LastLocs(l.lens[k], l.gen, Times(k, l.line), t + 1, |l.lens[k]|)
  }

  lemma PositionsInRange(l: Layout, k: nat, t: nat, size: nat)
    requires Fitting(l) && k < |l.lens| && t < l.gen && Times(|l.lens|, l.line) <= size
    ensures forall j :: 0 <= j < |Positions(l, k, t)| ==> 0 <= Positions(l, k, t)[j] < size
  {
    TimesGrows(k + 1, |l.lens|, l.line);
    forall j | 0 <= j < |l.lens[k]|
      ensures 0 <= Positions(l, k, t)[j] < size
    {
      RegionInLine(l, k, j);
    }
  }

  /** The lists of micro-batch `m`, and the same with one more token each. */
  ghost predicate Grown<V(!new)>(l: Layout, want: seq<seq<V>>, want1: seq<seq<V>>, vals: seq<V>, t: nat, m: nat) {
    && m < |l.lens| && |want| == |vals| == |l.lens[m]| && want1 == Extended(want, vals)
    && forall r {:trigger want[r]} :: 0 <= r < |l.lens[m]| ==> |want[r]| == l.lens[m][r] + t
  }

  /** Micro-batch `k` has stored its tokens: its lists have grown ... */
  lemma OwnListsGrow<V(!new)>(l: Layout, mem: seq<V>, mem1: seq<V>, k: nat, t: nat, vals: seq<V>,
                              want: seq<seq<V>>, want1: seq<seq<V>>)
    requires Fitting(l) && t < l.gen && Grown(l, want, want1, vals, t, k) && Times(k + 1, l.line) <= |mem|
    requires Lists(l, mem, k, want) && forall j :: 0 <= j < |Positions(l, k, t)| ==> 0 <= Positions(l, k, t)[j] < |mem|
    requires mem1 == Scatter(mem, Positions(l, k, t), vals)
    ensures Lists(l, mem1, k, want1)
  {
    LastLocsBehind(l, k, want, t);
    DecodeAppends(l, mem, k, want, Positions(l, k, t), vals);
  }

  /** ... and all others have stayed. */
  lemma OtherListsStay<V(!new)>(l: Layout, mem: seq<V>, mem1: seq<V>, k: nat, t: nat, vals: seq<V>,
                                want: seq<seq<V>>, want1: seq<seq<V>>, m: nat, other: seq<seq<V>>)
    requires Fitting(l) && t < l.gen && Grown(l, want, want1, vals, t, k) && m != k && Lists(l, mem, m, other)
    requires forall j :: 0 <= j < |Positions(l, k, t)| ==> 0 <= Positions(l, k, t)[j] < |mem|
    requires mem1 == Scatter(mem, Positions(l, k, t), vals)
    ensures Lists(l, mem1, m, other)
  {
    LastLocsBehind(l, k, want, t);
    DecodeKeepsOthers(l, mem, k, want, Positions(l, k, t), vals, m, other);
  }

  /** Decode attention of one layer for micro-batch `k`: the new position of every request is written. */
  method DecodeLayer<V(!new)>(pool: TokenToKVPool<V>, b: Batch, l: Layout, k: nat, layer: nat, t: nat, vals: seq<V>)
    requires pool.Valid() && Fitting(l) && k < |l.lens| && BatchReady(b, l, k, t + 1) && t < l.gen
    requires layer < |pool.kvDataCpu| && Times(|l.lens|, l.line) <= pool.cpuSize && |vals| == |l.lens[k]|
    requires forall j :: 0 <= j < |Positions(l, k, t)| ==> 0 <= Positions(l, k, t)[j] < pool.cpuSize
    modifies pool`kvDataCpu
    ensures pool.Valid()
    ensures pool.kvDataCpu
         == old(pool.kvDataCpu)[layer := Scatter(old(pool.kvDataCpu)[layer], Positions(l, k, t), vals)]
  {
    assert b.decodeOutCacheLoc == Positions(l, k, t);
    pool.StoreKvCacheCpu(layer, b.decodeOutCacheLoc, vals);
  }

  // -------------------------------------------------------------------------- whole batches

  /** What attention produces: prompts by layer, micro-batch, request; tokens also by decode step. */
  datatype Stream<V> = Stream(prompts: seq<seq<seq<seq<V>>>>, tokens: seq<seq<seq<seq<V>>>>)

  ghost predicate StreamFor<V(!new)>(l: Layout, layers: nat, s: Stream<V>) {
    && |s.prompts| == layers
    && (forall i {:trigger s.prompts[i]} :: 0 <= i < layers ==> |s.prompts[i]| == |l.lens|)
    && (forall i, k {:trigger s.prompts[i][k]} :: 0 <= i < layers && 0 <= k < |l.lens| ==>
      LensOf(s.prompts[i][k], l.lens[k]))
    && (forall t {:trigger s.tokens[t]} :: 0 <= t < |s.tokens| ==> |s.tokens[t]| == layers)
    && (forall t, i {:trigger s.tokens[t][i]} :: 0 <= t < |s.tokens| && 0 <= i < layers ==>
      |s.tokens[t][i]| == |l.lens|)
    && (forall t, i, k {:trigger s.tokens[t][i][k]} :: 0 <= t < |s.tokens| && 0 <= i < layers && 0 <= k < |l.lens| ==>
          |s.tokens[t][i][k]| == |l.lens[k]|)
  }

  /** The list of every request of micro-batch `k` in one layer: its prompt and `t` generated tokens. */
  function History<V(!new)>(l: Layout, layers: nat, s: Stream<V>, i: nat, k: nat, t: nat): (r: seq<seq<V>>)
    requires StreamFor(l, layers, s) && i < layers && k < |l.lens| && t <= |s.tokens|
    ensures |r| == |l.lens[k]| && forall m {:trigger r[m]} :: 0 <= m < |r| ==> |r[m]| == l.lens[k][m] + t
  {
    if t == 0 then s.prompts[i][k] else Extended(History(l, layers, s, i, k, t - 1), s.tokens[t - 1][i][k])
  }

  function Histories<V(!new)>(l: Layout, layers: nat, s: Stream<V>, i: nat, t: nat): (r: seq<seq<seq<V>>>)
    requires StreamFor(l, layers, s) && i < layers && t <= |s.tokens|
    ensures |r| == |l.lens| && forall k :: 0 <= k < |r| ==> r[k] == History(l, layers, s, i, k, t)
  {
    seq(|l.lens|, k requires 0 <= k < |l.lens| => History(l, layers, s, i, k, t))
  }

  ghost predicate Ready(batches: seq<Batch>, l: Layout, t: nat)
    reads batches
    requires |batches| == |l.lens|
  {
    && (forall k, m :: 0 <= k < m < |batches| ==> batches[k] != batches[m])
    && (forall k {:trigger batches[k]} :: 0 <= k < |batches| ==> BatchReady(batches[k], l, k, t))
  }

  ghost predicate BatchReady(b: Batch, l: Layout, k: nat, t: nat)
    reads b
  {
    k < |l.lens| && b.lens == l.lens[k] && b.LaidOut(Times(k, l.line), GpuBase(l, k), l.gen, t)
  }

  /** Different batches, one for every micro-batch of the layout, none of them empty. */
  ghost predicate Matching(batches: seq<Batch>, l: Layout) {
    && |batches| == |l.lens|
    && (forall k, m :: 0 <= k < m < |batches| ==> batches[k] != batches[m])
    && (forall k {:trigger batches[k]} :: 0 <= k < |batches| ==> batches[k].lens == l.lens[k] && |l.lens[k]| > 0)
  }

  /** Assigns every batch its line, in order. */
  method PrepareAllForPrefill<V(!new)>(pool: TokenToKVPool<V>, batches: seq<Batch>, l: Layout)
    requires pool.Valid() && pool.line == l.line && pool.curStartLoc == 0 && pool.curCl == 0
    requires Matching(batches, l)
    modifies batches, pool`curStartLoc, pool`curCl
    ensures pool.Valid() && Ready(batches, l, 0)
  {
    for k := 0 to |batches|
      invariant pool.Valid() && pool.curStartLoc == Times(k, l.line) && pool.curCl == k % 2
      invariant forall m {:trigger batches[m]} :: 0 <= m < k ==> BatchReady(batches[m], l, m, 0)
    {
      batches[k].PrepareForPrefill(pool, l.gen);
    }
  }

  method PrepareAllForDecode(batches: seq<Batch>, l: Layout, t: nat)
    requires |batches| == |l.lens| && Ready(batches, l, t)
    modifies batches
    ensures Ready(batches, l, t + 1)
  {
    for k := 0 to |batches|
      invariant forall m {:trigger batches[m]} :: 0 <= m < |batches| ==>
                BatchReady(batches[m], l, m, if m < k then t + 1 else t)
    {
      batches[k].PrepareForDecode();
    }
  }

  /** The pool is large enough for the layout. */
  ghost predicate Roomy<V(!new)>(pool: TokenToKVPool<V>, l: Layout)
    reads pool
  {
    pool.Valid() && pool.line == l.line && Fitting(l) && Times(|l.lens|, l.line) <= pool.cpuSize
  }

  /** Prefill of all layers: layer `i` of every micro-batch holds its prompts. */
  method PrefillAll<V(!new)>(pool: TokenToKVPool<V>, batches: seq<Batch>, l: Layout, s: Stream<V>)
    requires Roomy(pool, l) && StreamFor(l, |pool.kvDataCpu|, s)
    requires |batches| == |l.lens| && Ready(batches, l, 0)
    modifies pool`kvData, pool`kvDataCpu
    ensures Roomy(pool, l) && |pool.kvDataCpu| == old(|pool.kvDataCpu|)
    ensures forall i {:trigger pool.kvDataCpu[i]} :: 0 <= i < |pool.kvDataCpu| ==>
              LayerLists(l, pool.kvDataCpu[i], 0, |l.lens|, Histories(l, |pool.kvDataCpu|, s, i, 0))
  {
    var layers := |pool.kvDataCpu|;
    for i := 0 to layers
      invariant Roomy(pool, l) && |pool.kvDataCpu| == layers
      invariant forall m {:trigger pool.kvDataCpu[m]} :: 0 <= m < i ==>
                  LayerLists(l, pool.kvDataCpu[m], 0, |l.lens|, Histories(l, layers, s, m, 0))
    {
      for k := 0 to |batches|
        invariant Roomy(pool, l) && |pool.kvDataCpu| == layers
        invariant forall m {:trigger pool.kvDataCpu[m]} :: 0 <= m < i ==>
                    LayerLists(l, pool.kvDataCpu[m], 0, |l.lens|, Histories(l, layers, s, m, 0))
        invariant LayerLists(l, pool.kvDataCpu[i], 0, k, Histories(l, layers, s, i, 0))
      {
        PrefillLayer(pool, batches[k], l, k, i, s.prompts[i][k], Histories(l, layers, s, i, 0));
      }
    }
  }

  // ------------------------------------------------------------------- decode, layer by layer of memory

  /** Attention is issued for layer 0 of every micro-batch, for later layers only if there are more than two. */
  predicate Attends(slots: nat, i: nat) {
    i == 0 || slots > 2
  }

  /** The layout and the stream fit a memory of `size` cells per layer. */
  ghost predicate Running<V(!new)>(l: Layout, layers: nat, s: Stream<V>, size: nat) {
    Fitting(l) && StreamFor(l, layers, s) && |s.tokens| <= l.gen && Times(|l.lens|, l.line) <= size
  }

  /** The memory of layer `i` when the first `k` micro-batches have stored their tokens of step `t`. */
  ghost function DecodedMem<V(!new)>(l: Layout, layers: nat, s: Stream<V>, i: nat, t: nat, k: nat,
                                     mem: seq<V>): (r: seq<V>)
    requires Running(l, layers, s, |mem|) && i < layers && t < |s.tokens| && k <= |l.lens|
    ensures |r| == |mem|
  {
    if k == 0 then mem
    else
      PositionsInRange(l, k - 1, t, |mem|);
      Scatter(DecodedMem(l, layers, s, i, t, k - 1, mem), Positions(l, k - 1, t), s.tokens[t][i][k - 1])
  }

  /** The memory of layer `i` after `t` decode steps, from what prefill left. */
  ghost function LayerAfter<V(!new)>(l: Layout, layers: nat, s: Stream<V>, i: nat, t: nat, filled: seq<V>): (r: seq<V>)
    requires Running(l, layers, s, |filled|) && i < layers && t <= |s.tokens|
    ensures |r| == |filled|
  {
    if t == 0 then filled
    else
      var mem := LayerAfter(l, layers, s, i, t - 1, filled);
      if Attends(|l.lens|, i) then DecodedMem(l, layers, s, i, t - 1, |l.lens|, mem) else mem
  }

  lemma DecodedMore<V(!new)>(l: Layout, layers: nat, s: Stream<V>, i: nat, t: nat, k: nat, mem: seq<V>)
    requires Running(l, layers, s, |mem|) && i < layers && t < |s.tokens| && k < |l.lens|
    ensures forall j :: 0 <= j < |Positions(l, k, t)| ==> 0 <= Positions(l, k, t)[j] < |mem|
    ensures |s.tokens[t][i][k]| == |Positions(l, k, t)|
    ensures DecodedMem(l, layers, s, i, t, k + 1, mem)
         == Scatter(DecodedMem(l, layers, s, i, t, k, mem), Positions(l, k, t), s.tokens[t][i][k])
  {
    PositionsInRange(l, k, t, |mem|);
  }

  lemma HistoryGrown<V(!new)>(l: Layout, layers: nat, s: Stream<V>, i: nat, t: nat, k: nat)
    requires StreamFor(l, layers, s) && i < layers && t < |s.tokens| && k < |l.lens|
    ensures Grown(l, History(l, layers, s, i, k, t), History(l, layers, s, i, k, t + 1), s.tokens[t][i][k], t, k)
  {
  }

  /** What micro-batch `m` finds stays when micro-batch `k` stores its tokens. */
  lemma OtherStep<V(!new)>(l: Layout, layers: nat, s: Stream<V>, i: nat, t: nat, k: nat, mem: seq<V>, m: nat,
                           lists: seq<seq<V>>)
    requires Running(l, layers, s, |mem|) && i < layers && t < |s.tokens| && k < |l.lens| && m != k
    requires Lists(l, DecodedMem(l, layers, s, i, t, k, mem), m, lists)
    ensures Lists(l, DecodedMem(l, layers, s, i, t, k + 1, mem), m, lists)
  {
    DecodedMore(l, layers, s, i, t, k, mem);
    HistoryGrown(l, layers, s, i, t, k);
    OtherListsStay(l, DecodedMem(l, layers, s, i, t, k, mem), DecodedMem(l, layers, s, i, t, k + 1, mem), k, t,
                   s.tokens[t][i][k], History(l, layers, s, i, k, t), History(l, layers, s, i, k, t + 1), m, lists);
  }

  lemma OwnStep<V(!new)>(l: Layout, layers: nat, s: Stream<V>, i: nat, t: nat, k: nat, mem: seq<V>,
                         want: seq<seq<V>>, want1: seq<seq<V>>)
    requires Running(l, layers, s, |mem|) && i < layers && t < |s.tokens| && k < |l.lens|
    requires Lists(l, DecodedMem(l, layers, s, i, t, k, mem), k, want) && Grown(l, want, want1, s.tokens[t][i][k], t, k)
    ensures Lists(l, DecodedMem(l, layers, s, i, t, k + 1, mem), k, want1)
  {
    DecodedMore(l, layers, s, i, t, k, mem);
    TimesGrows(k + 1, |l.lens|, l.line);
    OwnListsGrow(l, DecodedMem(l, layers, s, i, t, k, mem), DecodedMem(l, layers, s, i, t, k + 1, mem), k, t,
                 s.tokens[t][i][k], want, want1);
  }

  /** Until its turn micro-batch `m` finds what it found before the step, and afterwards one more token per list. */
  lemma ListsInTurn<V(!new)>(l: Layout, layers: nat, s: Stream<V>, i: nat, t: nat, mem: seq<V>, m: nat)
    requires Running(l, layers, s, |mem|) && i < layers && t < |s.tokens| && m < |l.lens|
    requires Lists(l, mem, m, History(l, layers, s, i, m, t))
    ensures Lists(l, DecodedMem(l, layers, s, i, t, |l.lens|, mem), m, History(l, layers, s, i, m, t + 1))
  {
    ghost var before, after := History(l, layers, s, i, m, t), History(l, layers, s, i, m, t + 1);
    for k := 0 to m
      invariant Lists(l, DecodedMem(l, layers, s, i, t, k, mem), m, before)
    {
      OtherStep(l, layers, s, i, t, k, mem, m, before);
    }
    HistoryGrown(l, layers, s, i, t, m);
    OwnStep(l, layers, s, i, t, m, mem, before, after);
    for k := m + 1 to |l.lens|
      invariant Lists(l, DecodedMem(l, layers, s, i, t, k, mem), m, after)
    {
      OtherStep(l, layers, s, i, t, k, mem, m, after);
    }
  }

  /** In a layer whose attention is always issued, every list grows by a token in each step. */
  lemma {:induction false} AttendedListGrows<V(!new)>(l: Layout, layers: nat, s: Stream<V>, i: nat, t: nat,
      filled: seq<V>, m: nat)
    requires Running(l, layers, s, |filled|) && i < layers && t <= |s.tokens| && Attends(|l.lens|, i) && m < |l.lens|
    requires Lists(l, filled, m, History(l, layers, s, i, m, 0))
    ensures Lists(l, LayerAfter(l, layers, s, i, t, filled), m, History(l, layers, s, i, m, t))
  {
    if t > 0 {
      AttendedListGrows(l, layers, s, i, t - 1, filled, m);
      ListsInTurn(l, layers, s, i, t - 1, LayerAfter(l, layers, s, i, t - 1, filled), m);
    }
  }

  lemma AttendedLayerGrows<V(!new)>(l: Layout, layers: nat, s: Stream<V>, i: nat, t: nat, filled: seq<V>)
    requires Running(l, layers, s, |filled|) && i < layers && t <= |s.tokens| && Attends(|l.lens|, i)
    requires LayerLists(l, filled, 0, |l.lens|, Histories(l, layers, s, i, 0))
    ensures LayerLists(l, LayerAfter(l, layers, s, i, t, filled), 0, |l.lens|, Histories(l, layers, s, i, t))
  {
    forall m | 0 <= m < |l.lens|
      ensures Lists(l, LayerAfter(l, layers, s, i, t, filled), m, Histories(l, layers, s, i, t)[m])
    {
      assert Lists(l, filled, m, Histories(l, layers, s, i, 0)[m]);
      AttendedListGrows(l, layers, s, i, t, filled, m);
    }
  }

  /** A layer whose attention is skipped stays as prefill left it: prompts, and behind them what stood there. */
  lemma {:induction false} SkippedLayerStays<V(!new)>(l: Layout, layers: nat, s: Stream<V>, i: nat, t: nat,
      filled: seq<V>)
    requires Running(l, layers, s, |filled|) && i < layers && t <= |s.tokens| && !Attends(|l.lens|, i)
    ensures LayerAfter(l, layers, s, i, t, filled) == filled
  {
    if t > 0 {
      SkippedLayerStays(l, layers, s, i, t - 1, filled);
    }
  }

  /** In every layer every request finds its prompt and `t` generated tokens. */
  ghost predicate AllWindows<V(!new)>(l: Layout, layers: nat, s: Stream<V>, t: nat, mems: seq<seq<V>>)
    requires StreamFor(l, layers, s) && t <= |s.tokens|
  {
    && |mems| == layers
    && forall i {:trigger mems[i]} :: 0 <= i < layers ==>
         LayerLists(l, mems[i], 0, |l.lens|, Histories(l, layers, s, i, t))
  }

  /** The memory of all layers after `t` decode steps. */
  ghost function MemoryAfter<V(!new)>(l: Layout, layers: nat, s: Stream<V>, t: nat,
                                      filled: seq<seq<V>>): (r: seq<seq<V>>)
    requires |filled| == layers && t <= |s.tokens|
    requires forall i :: 0 <= i < layers ==> Running(l, layers, s, |filled[i]|)
    ensures |r| == layers && forall i :: 0 <= i < layers ==> r[i] == LayerAfter(l, layers, s, i, t, filled[i])
  {
    seq(layers, i requires 0 <= i < layers => LayerAfter(l, layers, s, i, t, filled[i]))
  }

  /** A stream with the same value for every token. */
  function Monotonous<V(!new)>(l: Layout, layers: nat, prompts: seq<seq<seq<seq<V>>>>, t: nat, v: V): (s: Stream<V>)
    ensures s.prompts == prompts && |s.tokens| == t
    ensures forall n, i, k :: 0 <= n < t && 0 <= i < layers && 0 <= k < |l.lens| ==>
              |s.tokens[n]| == layers && |s.tokens[n][i]| == |l.lens| && s.tokens[n][i][k] == seq(|l.lens[k]|, _ => v)
  {
    Stream(prompts, seq(t, _ =>
      seq(layers, _ => seq(|l.lens|, k requires 0 <= k < |l.lens| => seq(|l.lens[k]|, _ => v)))))
  }

  /** With it, the first token of the first request of micro-batch 0 is that value. */
  lemma {:induction false} MonotonousHistory<V(!new)>(l: Layout, layers: nat, s: Stream<V>, i: nat, t: nat, v: V)
    requires StreamFor(l, layers, s) && i < layers && 0 < |l.lens| && l.lens[0] != [] && 0 < t <= |s.tokens|
    requires s.tokens[0][i][0][0] == v
    ensures History(l, layers, s, i, 0, t)[0][l.lens[0][0]] == v
  {
    if t > 1 {
      MonotonousHistory(l, layers, s, i, t - 1, v);
    } else {
      assert History(l, layers, s, i, 0, 1) == Extended(History(l, layers, s, i, 0, 0), s.tokens[0][i][0]);
    }
  }

  /** If a skipped layer had all windows right, a cell behind the first prompt would hold the first token. */
  lemma SkippedWindow<V(!new)>(l: Layout, layers: nat, s: Stream<V>, t: nat, filled: seq<seq<V>>, v: V)
    requires |filled| == layers && 1 < layers && 0 < |l.lens| <= 2 && l.lens[0] != [] && 0 < t <= |s.tokens|
    requires StreamFor(l, layers, s) && forall i :: 0 <= i < layers ==> Running(l, layers, s, |filled[i]|)
    requires s.tokens[0][1][0][0] == v && AllWindows(l, layers, s, t, MemoryAfter(l, layers, s, t, filled))
    ensures l.lens[0][0] < |filled[1]| && filled[1][l.lens[0][0]] == v
  {
    var mems := MemoryAfter(l, layers, s, t, filled);
    SkippedLayerStays(l, layers, s, 1, t, filled[1]);
    MonotonousHistory(l, layers, s, 1, t, v);
    var want := Histories(l, layers, s, 1, t);
    assert mems[1] == filled[1] && LayerLists(l, mems[1], 0, |l.lens|, want) && Lists(l, filled[1], 0, want[0]);
    assert ListOf(l, filled[1], 0, 0, want[0][0]);
    assert Start(l, 0, 0) == 0;
    assert filled[1][0..|want[0][0]|][l.lens[0][0]] == want[0][0][l.lens[0][0]];
  }

  /** After `t` decode steps every window holds what it should, whatever is generated. */
  ghost predicate AlwaysRight<V(!new)>(l: Layout, layers: nat, prompts: seq<seq<seq<seq<V>>>>, t: nat,
                                       filled: seq<seq<V>>)
    requires |filled| == layers && Fitting(l) && t <= l.gen
    requires forall i :: 0 <= i < layers ==> Times(|l.lens|, l.line) <= |filled[i]|
  {
    forall s: Stream<V> :: s.prompts == prompts && |s.tokens| == t && StreamFor(l, layers, s) ==>
      AllWindows(l, layers, s, t, MemoryAfter(l, layers, s, t, filled))
  }

  /**
   From any memory that prefill may leave: that is so exactly if there are more than two micro-batches, no decode step
   was taken, or there is only one layer.
  */
  lemma WindowsIffMoreThanTwo<V(!new)>(l: Layout, layers: nat, prompts: seq<seq<seq<seq<V>>>>, t: nat,
                                       filled: seq<seq<V>>, v: V, w: V)
    requires Fitting(l) && 0 < |l.lens| && l.lens[0] != [] && t <= l.gen && v != w && |filled| == layers
    requires StreamFor(l, layers, Stream(prompts, [])) && AllWindows(l, layers, Stream(prompts, []), 0, filled)
    requires forall i :: 0 <= i < layers ==> Times(|l.lens|, l.line) <= |filled[i]|
    ensures AlwaysRight(l, layers, prompts, t, filled) <==> |l.lens| > 2 || t == 0 || layers <= 1
  {
    if |l.lens| > 2 || t == 0 || layers <= 1 {
      forall s: Stream<V> | s.prompts == prompts && |s.tokens| == t && StreamFor(l, layers, s)
        ensures AllWindows(l, layers, s, t, MemoryAfter(l, layers, s, t, filled))
      {
        forall i | 0 <= i < layers
          ensures LayerLists(l, filled[i], 0, |l.lens|, Histories(l, layers, s, i, 0))
        {
          assert LayerLists(l, filled[i], 0, |l.lens|, Histories(l, layers, Stream(prompts, []), i, 0));
          SamePrompts(l, layers, Stream(prompts, []), s, i);
        }
        WindowsWhenAttended(l, layers, s, t, filled);
      }
    } else {
      var u := if l.lens[0][0] < |filled[1]| && filled[1][l.lens[0][0]] == v then w else v;
      var s := Monotonous(l, layers, prompts, t, u);
      if AllWindows(l, layers, s, t, MemoryAfter(l, layers, s, t, filled)) {
        SkippedWindow(l, layers, s, t, filled, u);
      }
    }
  }

  lemma SamePrompts<V(!new)>(l: Layout, layers: nat, s: Stream<V>, r: Stream<V>, i: nat)
    requires StreamFor(l, layers, s) && StreamFor(l, layers, r) && s.prompts == r.prompts && i < layers
    ensures Histories(l, layers, s, i, 0) == Histories(l, layers, r, i, 0)
  {
    forall k | 0 <= k < |l.lens|
      ensures Histories(l, layers, s, i, 0)[k] == Histories(l, layers, r, i, 0)[k]
    {
      assert History(l, layers, s, i, k, 0) == s.prompts[i][k] == History(l, layers, r, i, k, 0);
    }
  }

  lemma WindowsWhenAttended<V(!new)>(l: Layout, layers: nat, s: Stream<V>, t: nat, filled: seq<seq<V>>)
    requires |filled| == layers && t <= |s.tokens| && forall i :: 0 <= i < layers ==> Running(l, layers, s, |filled[i]|)
    requires StreamFor(l, layers, s)
    requires forall i {:trigger filled[i]} :: 0 <= i < layers ==>
               LayerLists(l, filled[i], 0, |l.lens|, Histories(l, layers, s, i, 0))
    requires |l.lens| > 2 || t == 0 || layers <= 1
    ensures AllWindows(l, layers, s, t, MemoryAfter(l, layers, s, t, filled))
  {
    forall i | 0 <= i < layers
      ensures LayerLists(l, MemoryAfter(l, layers, s, t, filled)[i], 0, |l.lens|, Histories(l, layers, s, i, t))
    {
      assert LayerLists(l, filled[i], 0, |l.lens|, Histories(l, layers, s, i, 0));
      if t > 0 {
        AttendedLayerGrows(l, layers, s, i, t, filled[i]);
      }
    }
  }

  /** Two micro-batches of one request each, two layers, one decode step; no cell behind a prompt holds a token. */
  lemma TwoBatchesMissTokens()
    ensures var l := Layout([[1], [1]], 1, 2);
            var s := Stream([[[[1]], [[1]]], [[[1]], [[1]]]], [[[[2], [2]], [[2], [2]]]]);
            var filled := [[1, 0, 1, 0], [1, 0, 1, 0]];
            && Running(l, 2, s, 4) && AllWindows(l, 2, s, 0, filled)
            && !AllWindows(l, 2, s, 1, MemoryAfter(l, 2, s, 1, filled))
  {
    var l := Layout([[1], [1]], 1, 2);
    var s := Stream([[[[1]], [[1]]], [[[1]], [[1]]]], [[[[2], [2]], [[2], [2]]]]);
    var filled := [[1, 0, 1, 0], [1, 0, 1, 0]];
    SmallLayout(l);
    assert StreamFor(l, 2, s);
    forall i, k | 0 <= i < 2 && 0 <= k < 2
      ensures Lists(l, filled[i], k, Histories(l, 2, s, i, 0)[k])
    {
      assert Histories(l, 2, s, i, 0)[k] == [[1]];
      assert filled[i][2 * k..2 * k + 1] == [1];
    }
    TwoBatchesMiss(l, s, filled);
  }

  lemma TwoBatchesMiss(l: Layout, s: Stream<int>, filled: seq<seq<int>>)
    requires |l.lens| == 2 && l.lens[0] == [1] && |filled| == 2 && |filled[0]| == |filled[1]| == 4 && filled[1][1] != 2
    requires Running(l, 2, s, 4) && |s.tokens| == 1 && s.tokens[0][1][0] == [2]
    ensures !AllWindows(l, 2, s, 1, MemoryAfter(l, 2, s, 1, filled))
  {
    if AllWindows(l, 2, s, 1, MemoryAfter(l, 2, s, 1, filled)) {
      SkippedWindow(l, 2, s, 1, filled, 2);
    }
  }

  lemma SmallLayout(l: Layout)
    requires l == Layout([[1], [1]], 1, 2)
    ensures Fitting(l) && Start(l, 0, 0) == 0 && Start(l, 1, 0) == 2 && Times(2, l.line) == 4
  {
    assert Offset(l.lens[0], l.gen, 0) == Offset(l.lens[1], l.gen, 0) == 0;
    assert Offset(l.lens[0], l.gen, 1) == Offset(l.lens[1], l.gen, 1) == 2;
    assert Times(1, 2) == 2;
  }

  /** One decode step: the tokens of every layer whose attention is issued are stored. */
  method DecodeAll<V(!new)>(pool: TokenToKVPool<V>, batches: seq<Batch>, l: Layout, s: Stream<V>, t: nat)
    requires Roomy(pool, l) && Running(l, |pool.kvDataCpu|, s, pool.cpuSize) && t < |s.tokens|
    requires |batches| == |l.lens| && Ready(batches, l, t + 1)
    modifies pool`kvDataCpu
    ensures Roomy(pool, l) && |pool.kvDataCpu| == old(|pool.kvDataCpu|)
    ensures forall i {:trigger pool.kvDataCpu[i]} :: 0 <= i < |pool.kvDataCpu| ==>
              pool.kvDataCpu[i] ==
              if Attends(|batches|, i) then DecodedMem(l, |pool.kvDataCpu|, s, i, t, |l.lens|, old(pool.kvDataCpu)[i])
              else old(pool.kvDataCpu)[i]
  {
    var layers := |pool.kvDataCpu|;
    for i := 0 to layers
      invariant Roomy(pool, l) && |pool.kvDataCpu| == layers
      invariant forall m {:trigger pool.kvDataCpu[m]} :: 0 <= m < layers ==>
                  pool.kvDataCpu[m] ==
                  if m < i && Attends(|batches|, m) then
                    DecodedMem(l, layers, s, m, t, |l.lens|, old(pool.kvDataCpu)[m])
                  else old(pool.kvDataCpu)[m]
    {
      if Attends(|batches|, i) {
        DecodeOneLayer(pool, batches, l, s, t, i);
      }
    }
  }

  method DecodeOneLayer<V(!new)>(pool: TokenToKVPool<V>, batches: seq<Batch>, l: Layout, s: Stream<V>, t: nat, i: nat)
    requires Roomy(pool, l) && Running(l, |pool.kvDataCpu|, s, pool.cpuSize) && t < |s.tokens| && i < |pool.kvDataCpu|
    requires |batches| == |l.lens| && Ready(batches, l, t + 1)
    modifies pool`kvDataCpu
    ensures Roomy(pool, l)
    ensures pool.kvDataCpu
         == old(pool.kvDataCpu)[i := DecodedMem(l, |old(pool.kvDataCpu)|, s, i, t, |l.lens|, old(pool.kvDataCpu)[i])]
  {
    ghost var before := pool.kvDataCpu;
    for k := 0 to |batches|
      invariant LayerAt(pool, l, s, t, i, k, before)
    {
      DecodeOne(pool, batches, l, s, t, i, k, before);
    }
  }

  /** In layer `i` the first `k` micro-batches have stored their tokens. */
  ghost predicate LayerAt<V(!new)>(pool: TokenToKVPool<V>, l: Layout, s: Stream<V>, t: nat, i: nat, k: nat,
                                   before: seq<seq<V>>)
    reads pool
  {
    && Roomy(pool, l) && i < |before| && |before[i]| == pool.cpuSize && Running(l, |before|, s, pool.cpuSize)
    && t < |s.tokens| && k <= |l.lens|
    && pool.kvDataCpu == before[i := DecodedMem(l, |before|, s, i, t, k, before[i])]
  }

  method DecodeOne<V(!new)>(pool: TokenToKVPool<V>, batches: seq<Batch>, l: Layout, s: Stream<V>, t: nat, i: nat,
                            k: nat, ghost before: seq<seq<V>>)
    requires LayerAt(pool, l, s, t, i, k, before) && k < |batches| == |l.lens| && BatchReady(batches[k], l, k, t + 1)
    modifies pool`kvDataCpu
    ensures LayerAt(pool, l, s, t, i, k + 1, before)
  {
    DecodedMore(l, |before|, s, i, t, k, before[i]);
    DecodeLayer(pool, batches[k], l, k, i, t, s.tokens[t][i][k]);
  }

  /** Every layer is what prefill left, with the tokens of `t` decode steps stored. */
  ghost predicate MemoryRight<V(!new)>(pool: TokenToKVPool<V>, l: Layout, s: Stream<V>, t: nat, filled: seq<seq<V>>)
    reads pool
  {
    && Roomy(pool, l) && |filled| == |pool.kvDataCpu| && Running(l, |filled|, s, pool.cpuSize) && t <= |s.tokens|
    && forall i {:trigger filled[i]} :: 0 <= i < |filled| ==>
         |filled[i]| == pool.cpuSize && pool.kvDataCpu[i] == LayerAfter(l, |filled|, s, i, t, filled[i])
  }

  method ServeStep<V(!new)>(pool: TokenToKVPool<V>, batches: seq<Batch>, l: Layout, s: Stream<V>, t: nat,
                            ghost filled: seq<seq<V>>)
    requires t < |s.tokens| && MemoryRight(pool, l, s, t, filled) && |batches| == |l.lens| && Ready(batches, l, t)
    modifies pool`kvDataCpu, batches
    ensures MemoryRight(pool, l, s, t + 1, filled) && Ready(batches, l, t + 1)
  {
    PrepareAllForDecode(batches, l, t);
    DecodeAll(pool, batches, l, s, t);
  }

  /**
   Prefill and then one decode step after the other. The window that attention reads for a request, from `startLoc`
   on for `seqLens` positions, is exactly the prompt and the tokens generated so far - in every layer if there are
   more than two micro-batches, and otherwise in layer 0. Later layers then stay as prefill left them.
  */
  method ServeAll<V(!new)>(pool: TokenToKVPool<V>, batches: seq<Batch>, l: Layout, s: Stream<V>)
    returns (ghost filled: seq<seq<V>>)
    requires Roomy(pool, l) && pool.curStartLoc == 0 && pool.curCl == 0 && StreamFor(l, |pool.kvDataCpu|, s)
    requires |s.tokens| <= l.gen
    requires Matching(batches, l)
    modifies pool, batches
    ensures MemoryRight(pool, l, s, |s.tokens|, filled) && AllWindows(l, |filled|, s, 0, filled)
    ensures |pool.kvDataCpu| == old(|pool.kvDataCpu|) && Ready(batches, l, |s.tokens|)
    ensures forall i {:trigger pool.kvDataCpu[i]} :: 0 <= i < |filled| ==>
              if Attends(|batches|, i) then
                LayerLists(l, pool.kvDataCpu[i], 0, |l.lens|, Histories(l, |filled|, s, i, |s.tokens|))
              else pool.kvDataCpu[i] == filled[i]
  {
    PrepareAllForPrefill(pool, batches, l);
    PrefillAll(pool, batches, l, s);
    filled := pool.kvDataCpu;
    ServeSteps(pool, batches, l, s, filled);
    InTheEnd(pool, l, s, filled);
  }

  method ServeSteps<V(!new)>(pool: TokenToKVPool<V>, batches: seq<Batch>, l: Layout, s: Stream<V>,
                             ghost filled: seq<seq<V>>)
    requires MemoryRight(pool, l, s, 0, filled) && |batches| == |l.lens| && Ready(batches, l, 0)
    modifies pool`kvDataCpu, batches
    ensures MemoryRight(pool, l, s, |s.tokens|, filled) && Ready(batches, l, |s.tokens|)
  {
    var t := 0;
    while t < |s.tokens|
      invariant t <= |s.tokens| && MemoryRight(pool, l, s, t, filled) && Ready(batches, l, t)
    {
      ServeStep(pool, batches, l, s, t, filled);
      t := t + 1;
    }
  }

  lemma InTheEnd<V(!new)>(pool: TokenToKVPool<V>, l: Layout, s: Stream<V>, filled: seq<seq<V>>)
    requires MemoryRight(pool, l, s, |s.tokens|, filled) && AllWindows(l, |filled|, s, 0, filled)
    ensures forall i {:trigger pool.kvDataCpu[i]} :: 0 <= i < |filled| ==>
              if Attends(|l.lens|, i) then
                LayerLists(l, pool.kvDataCpu[i], 0, |l.lens|, Histories(l, |filled|, s, i, |s.tokens|))
              else pool.kvDataCpu[i] == filled[i]
  {
    forall i | 0 <= i < |filled|
      ensures if Attends(|l.lens|, i) then
                LayerLists(l, pool.kvDataCpu[i], 0, |l.lens|, Histories(l, |filled|, s, i, |s.tokens|))
              else pool.kvDataCpu[i] == filled[i]
    {
      LayerInTheEnd(l, |filled|, s, i, filled[i]);
    }
  }

  lemma LayerInTheEnd<V(!new)>(l: Layout, layers: nat, s: Stream<V>, i: nat, filled: seq<V>)
    requires Running(l, layers, s, |filled|) && i < layers
    requires LayerLists(l, filled, 0, |l.lens|, Histories(l, layers, s, i, 0))
    ensures var mem := LayerAfter(l, layers, s, i, |s.tokens|, filled);
            if Attends(|l.lens|, i) then LayerLists(l, mem, 0, |l.lens|, Histories(l, layers, s, i, |s.tokens|))
            else mem == filled
  {
    if Attends(|l.lens|, i) {
      AttendedLayerGrows(l, layers, s, i, |s.tokens|, filled);
    } else {
      SkippedLayerStays(l, layers, s, i, |s.tokens|, filled);
    }
  }

  /** The window attention reads for a request is its list. */
  lemma WindowIsList<V(!new)>(b: Batch, l: Layout, k: nat, t: nat, mem: seq<V>, want: seq<seq<V>>, i: nat)
    requires BatchReady(b, l, k, t) && Lists(l, mem, k, want) && i < |want| && |want[i]| == l.lens[k][i] + t
    ensures b.startLoc[i] + b.seqLens[i] <= |mem|
    ensures mem[b.startLoc[i]..b.startLoc[i] + b.seqLens[i]] == want[i]
  {
    assert ListOf(l, mem, k, i, want[i]);
  }
}
