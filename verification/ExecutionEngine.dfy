/**
 The engine whose steps the serving loop issues. Attention runs on a CPU worker and pinned-buffer
 copies on a copy worker: a submitted task may take effect at any moment until its future is awaited.
*/
module ExecutionEngine {
  import opened Basics
  import opened Network
  import opened WeightLayout

  /** A slot of `attn_futures` or `copy_futures`; a pending task carries the layer it works for. */
  datatype Future = Absent | Pending(layer: nat) | Done

  /** What a micro-batch and its attention buffer hold once its submitted task, if any, has run. */
  function Outcome<V>(net: Net<V>, b: MicroBatch<V>, f: Future, q: V, a: V): (r: Progress<V>)
    requires f.Pending? ==> f.layer < |b.kv|
    ensures |r.batch.kv| == |b.kv|
  {
    if f.Pending? then Attended(net, f.layer, b, q) else Progress(b, a)
  }

  function Outcomes<V>(net: Net<V>, z: Sizes, bs: seq<MicroBatch<V>>, fs: seq<Future>, qs: seq<V>,
                       hs: seq<V>): (r: seq<Progress<V>>)
    requires |fs| == |bs| <= |qs| == |hs|
    requires forall k :: 0 <= k < |bs| ==> |bs[k].kv| == z.layers
    requires forall k :: 0 <= k < |fs| && fs[k].Pending? ==> fs[k].layer < z.layers
    ensures |r| == |bs|
    ensures forall k :: 0 <= k < |bs| ==> r[k] == Outcome(net, bs[k], fs[k], qs[k], hs[k])
  {
    seq(|bs|, k requires 0 <= k < |bs| => Outcome(net, bs[k], fs[k], qs[k], hs[k]))
  }

  /** Futures at a later moment: some pending tasks may have completed. */
  predicate Later(f0: seq<Future>, f1: seq<Future>) {
    && |f0| == |f1|
    && forall k :: 0 <= k < |f1| ==> f1[k] == f0[k] || (f0[k].Pending? && f1[k] == Done)
  }

  /** Every slot of the pinned buffer keeps the rows it holds or was promised. */
  ghost predicate PinKept(z: Sizes, pin0: seq<Row>, f0: seq<Future>, pin1: seq<Row>, f1: seq<Future>)
    requires z.Valid()
  {
    && |f0| == |f1|
    && forall s, layer :: 0 <= s < |f1| && Relayed(z, |f0|, pin0, f0[s], s, layer) ==>
      Relayed(z, |f0|, pin1, f1[s], s, layer)
  }

  /** Slot `s` of the pinned buffer holds the rows of `layer`, or a submitted copy will put them there. */
  ghost predicate Relayed(z: Sizes, slots: nat, pin: seq<Row>, f: Future, s: nat, layer: nat)
    requires z.Valid() && s < slots
  {
    f == Pending(layer) || (f == Done && Landed(z, slots, pin, s, layer))
  }

  ghost predicate Landed(z: Sizes, slots: nat, pin: seq<Row>, s: nat, layer: nat)
    requires z.Valid() && s < slots
  {
    var lo, hi := SlotStart(z, slots, s), SlotEnd(z, slots, s);
    Stands(pin, lo, layer, z.ResidentRows() + lo, hi - lo)
  }

  lemma LandedSlice(z: Sizes, slots: nat, pin: seq<Row>, s: nat, layer: nat)
    requires z.Valid() && s < slots && |pin| == z.PageRows() && Landed(z, slots, pin, s, layer)
    ensures var lo, hi := SlotStart(z, slots, s), SlotEnd(z, slots, s);
            lo <= hi <= |pin| && Stands(pin[lo..hi], 0, layer, z.ResidentRows() + lo, hi - lo)
  {
    SlotBounds(z, slots, s);
  }

  /** A micro-batch before and after it is prepared for a decode step. */
  ghost predicate Continues<V>(b: MicroBatch<V>, r: MicroBatch<V>) {
    && |r.seqLens| == |b.seqLens| && (forall i :: 0 <= i < |b.seqLens| ==> r.seqLens[i] == b.seqLens[i] + 1)
    && r.input == (if b.outputs == [] then b.input else b.outputs[|b.outputs| - 1])
    && r.kv == b.kv && r.outputs == b.outputs
    && r.hidden == b.hidden && r.hiddenCpu == b.hiddenCpu && r.residual == b.residual
  }

  /** A whole page at once; what stands on the other page stays. */
  lemma PageFills(z: Sizes, cache: seq<Row>, page: nat, layer: int, other: int, at: nat, src: seq<Row>)
    requires z.Valid() && page < 2 && |cache| == z.CacheRows() && Resident(z, cache)
    requires at == Times(PageStart(z, page), z.unit) && src == Streamed(z, layer, 0, z.PageRows())
    ensures at + |src| <= |cache|
    ensures var next := Blit(cache, at, src);
            && Resident(z, next) && PageStands(z, next, page, layer, z.PageRows())
            && (PageStands(z, cache, 1 - page, other, z.PageRows()) ==>
                  PageStands(z, next, 1 - page, other, z.PageRows()))
  {
    RowsOfSlots(z, page);
    PageExtended(z, cache, page, layer, 0, src);
    ResidentKept(z, cache, at, src);
    if PageStands(z, cache, 1 - page, other, z.PageRows()) {
      OtherPageKept(z, cache, page, 0, src, other);
    }
  }

  /** The next slot of the page, from the pinned buffer. */
  lemma SlotFills(z: Sizes, slots: nat, cache: seq<Row>, pin: seq<Row>, page: nat, s: nat, layer: nat, other: int)
    requires z.Valid() && page < 2 && s < slots && |pin| == z.PageRows() && Landed(z, slots, pin, s, layer)
    requires Filling(z, cache, page, layer, SlotStart(z, slots, s), other)
    ensures var lo, hi := SlotStart(z, slots, s), SlotEnd(z, slots, s);
            && lo <= hi <= |pin| && PageStartRow(z, page) + hi <= |cache|
            && Filling(z, Blit(cache, PageStartRow(z, page) + lo, pin[lo..hi]), page, layer, hi, other)
  {
    var lo, hi := SlotStart(z, slots, s), SlotEnd(z, slots, s);
    SlotBounds(z, slots, s);
    LandedSlice(z, slots, pin, s, layer);
    FillingMore(z, cache, page, layer, lo, pin[lo..hi], other);
  }

  /** Completing the copy of slot `s` keeps what the other slots hold or were promised. */
  lemma CopyKeeps(z: Sizes, slots: nat, pin: seq<Row>, fs: seq<Future>, s: nat)
    requires z.Valid() && s < slots == |fs| && fs[s].Pending? && |pin| == z.PageRows()
    ensures var lo, hi := SlotStart(z, slots, s), SlotEnd(z, slots, s);
            && lo <= hi <= |pin|
            && PinKept(z, pin, fs, Blit(pin, lo, Streamed(z, fs[s].layer, lo, hi)), fs[s := Done])
  {
    var lo, hi := SlotStart(z, slots, s), SlotEnd(z, slots, s);
    SlotBounds(z, slots, s);
    var pin1 := Blit(pin, lo, Streamed(z, fs[s].layer, lo, hi));
    forall t, layer: nat | 0 <= t < slots && Relayed(z, slots, pin, fs[t], t, layer)
      ensures Relayed(z, slots, pin1, fs[s := Done][t], t, layer)
    {
      SlotBounds(z, slots, t);
      if t < s {
        TimesGrows(t + 1, s, SlotRows(z, slots));
      } else if s < t {
        TimesGrows(s + 1, t, SlotRows(z, slots));
      }
    }
  }

  class ExecutionEngine<V(!new)> {
    const net: Net<V>
    const z: Sizes
    const capacity: nat     // pinned buffers for micro-batches

    // weights
    var cache: seq<Row>
    var pin: seq<Row>
    var mapping: seq<seq<int>>
    var gpuPage: nat
    var copyFutures: seq<Future>
    ghost var copyLog: seq<(nat, nat)>

    // micro-batches
    var batches: seq<MicroBatch<V>>
    var lines: seq<Option<V>>
    var qkv: seq<Option<V>>
    var qkvPin: seq<V>
    var hiddenPin: seq<V>
    var attnFutures: seq<Future>

    /** The buffers that are allocated once. */
    ghost predicate Installed()
      reads this
    {
      && z.Valid()
      && |cache| == z.CacheRows() && |pin| == z.PageRows()
      && gpuPage < 2 && |lines| == 2 && |qkvPin| == |hiddenPin| == capacity
    }

    /** The buffers fit the micro-batches, and pending tasks are for existing layers. */
    ghost predicate Shaped()
      reads this
    {
      && Installed()
      && 0 < |batches| <= |qkvPin|
      && |qkv| == |attnFutures| == |copyFutures| == |batches|
      && (forall k :: 0 <= k < |batches| ==> |batches[k].kv| == z.layers)
      && (forall k :: 0 <= k < |attnFutures| && attnFutures[k].Pending? ==> attnFutures[k].layer < z.layers)
    }

    ghost predicate Mapped()
      reads this
      requires z.Valid()
    {
      |mapping| == z.layers && forall i :: 0 <= i < z.layers ==> MapsLayer(z, mapping[i], i)
    }

    /** The index map and the resident experts are as `InitGpuExperts` left them. */
    ghost predicate Loaded()
      reads this
      requires z.Valid()
    {
      Mapped() && Resident(z, cache)
    }

    /** The settled state of every micro-batch. */
    function Settlement(): (r: seq<Progress<V>>)
      reads this
      requires Shaped()
      ensures |r| == |batches|
    {
      Outcomes(net, z, batches, attnFutures, qkvPin, hiddenPin)
    }

    constructor (net: Net<V>, z: Sizes, cache: seq<Row>, pin: seq<Row>, qkvPin: seq<V>, hiddenPin: seq<V>)
      requires z.Valid() && |cache| == z.CacheRows() && |pin| == z.PageRows() && |qkvPin| == |hiddenPin|
      ensures this.net == net && this.z == z && Installed() && Loaded() && gpuPage == 0
      ensures capacity == |qkvPin|
    {
      this.net, this.z, this.capacity := net, z, |qkvPin|;
      this.cache, this.pin, this.mapping, this.gpuPage := cache, pin, [], 0;
      this.copyFutures, this.copyLog, this.lines := [], [], [None, None];
      this.batches, this.qkv, this.attnFutures := [], [], [];
      this.qkvPin, this.hiddenPin := qkvPin, hiddenPin;
      new;
      InitGpuExperts();
    }

    /** Copies the first experts of every layer into the cache and fills the index maps. */
    method InitGpuExperts()
      requires z.Valid() && |cache| == z.CacheRows()
      modifies `cache, `mapping
      ensures Loaded() && |cache| == old(|cache|)
    {
      mapping := [];
      var g := z.ResidentRows();
      for i := 0 to z.layers
        invariant |cache| == z.CacheRows()
        invariant |mapping| == i
        invariant forall l :: 0 <= l < i ==> MapsLayer(z, mapping[l], l) && ResidentLayer(z, cache, l)
      {
        TimesGrows(i + 1, z.layers, g);
        ghost var before := cache;
        cache := Blit(cache, Times(i, g), seq(g, x => Row(i, x)));
        forall l | 0 <= l <= i
          ensures ResidentLayer(z, cache, l)
        {
          if l < i {
            assert ResidentLayer(z, before, l);
            TimesGrows(l + 1, i, g);
          }
        }
        mapping := mapping + [seq(z.experts, e => if e < z.resident then Times(i, z.resident) + e
                                                  else PageStart(z, i % 2) + (e - z.resident))];
      }
    }

    /** Installs new micro-batches; no task of theirs has been submitted. */
    method SetMicroBatches(mbs: seq<MicroBatch<V>>)
      requires z.Valid() && 0 < |mbs|
      modifies `batches, `qkv, `attnFutures, `copyFutures
      ensures batches == mbs
      ensures qkv == seq(|mbs|, _ => None) && attnFutures == copyFutures == seq(|mbs|, _ => Absent)
    {
      batches := mbs;
      qkv := seq(|mbs|, _ => None);
      attnFutures, copyFutures := seq(|mbs|, _ => Absent), seq(|mbs|, _ => Absent);
    }

    // -------------------------------------------------------------------------- the two workers

    /** The CPU worker completes the attention task of micro-batch `k`. */
    method CpuAttentionTask(k: nat)
      requires Shaped() && k < |batches| && attnFutures[k].Pending?
      modifies `batches, `hiddenPin, `attnFutures
      ensures Shaped() && |batches| == old(|batches|) && |hiddenPin| == old(|hiddenPin|)
      ensures attnFutures == old(attnFutures)[k := Done] && Settlement() == old(Settlement())
    {
      var i := attnFutures[k].layer;
      var (a, c) := net.attn(i, batches[k].seqLens, qkvPin[k], batches[k].kv[i]);
      batches := batches[k := batches[k].(kv := batches[k].kv[i := c])];
      hiddenPin := hiddenPin[k := a];
      attnFutures := attnFutures[k := Done];
    }

    /** The copy worker fills slot `s` of the pinned buffer. */
    method CopyToPinTask(s: nat)
      requires Shaped() && s < |batches| && copyFutures[s].Pending?
      modifies `pin, `copyFutures
      ensures Shaped() && copyFutures == old(copyFutures)[s := Done]
      ensures PinKept(z, old(pin), old(copyFutures), pin, copyFutures)
    {
      var slots := |batches|;
      var lo, hi := SlotStart(z, slots, s), SlotEnd(z, slots, s);
      SlotBounds(z, slots, s);
      pin := Blit(pin, lo, Streamed(z, copyFutures[s].layer, lo, hi));
      copyFutures := copyFutures[s := Done];
      CopyKeeps(z, slots, old(pin), old(copyFutures), s);
    }

    /** Between two steps the CPU worker may complete any of its submitted tasks. */
    method CpuWorker()
      requires Shaped()
      modifies `batches, `hiddenPin, `attnFutures
      ensures Shaped() && |batches| == old(|batches|) && |hiddenPin| == old(|hiddenPin|)
      ensures Settlement() == old(Settlement())
      ensures Later(old(attnFutures), attnFutures)
    {
      for k := 0 to |batches|
        invariant Shaped() && |batches| == old(|batches|) && |hiddenPin| == old(|hiddenPin|)
        invariant Settlement() == old(Settlement())
        invariant Later(old(attnFutures), attnFutures)
      {
        var scheduled: bool := *;
        if scheduled && attnFutures[k].Pending? {
          CpuAttentionTask(k);
        }
      }
    }

    /** Between two steps the copy worker may complete any of its submitted tasks. */
    method CopyWorker()
      requires Shaped()
      modifies `pin, `copyFutures
      ensures Shaped() && Later(old(copyFutures), copyFutures)
      ensures PinKept(z, old(pin), old(copyFutures), pin, copyFutures)
    {
      for s := 0 to |batches|
        invariant Shaped() && Later(old(copyFutures), copyFutures)
        invariant PinKept(z, old(pin), old(copyFutures), pin, copyFutures)
      {
        var scheduled: bool := *;
        if scheduled && copyFutures[s].Pending? {
          CopyToPinTask(s);
        }
      }
    }

    // ------------------------------------------------------------------------- steps on weights

    /** Prefill: the whole page of `layer` goes to the current GPU page. */
    method PrefetchExperts(layer: nat, ghost other: nat)
      requires Shaped() && Loaded()
      modifies `cache, `gpuPage
      ensures Shaped() && Loaded() && gpuPage == (old(gpuPage) + 1) % 2
      ensures PageStands(z, cache, old(gpuPage), layer, z.PageRows())
      ensures old(PageStands(z, cache, 1 - gpuPage, other, z.PageRows())) ==>
                PageStands(z, cache, gpuPage, other, z.PageRows())
    {
      var at, src := Times(PageStart(z, gpuPage), z.unit), Streamed(z, layer, 0, z.PageRows());
      PageFills(z, cache, gpuPage, layer, other, at, src);
      gpuPage := (gpuPage + 1) % 2;
      cache := Blit(cache, at, src);
    }

    /** Decode: awaits the pinned copy of slot `s`, moves it to the current page, and flips at the end. */
    method PrefetchExpertsDecode(s: nat, ghost layer: nat, ghost other: nat)
      requires Shaped() && s < |batches| && Relayed(z, |batches|, pin, copyFutures[s], s, layer)
      requires Filling(z, cache, gpuPage, layer, SlotStart(z, |batches|, s), other)
      modifies `cache, `gpuPage, `pin, `copyFutures
      ensures Shaped()
      ensures gpuPage == if s == |batches| - 1 then (old(gpuPage) + 1) % 2 else old(gpuPage)
      ensures Filling(z, cache, old(gpuPage), layer, SlotEnd(z, |batches|, s), other)
      ensures copyFutures == old(copyFutures)[s := Done]
      ensures PinKept(z, old(pin), old(copyFutures), pin, copyFutures)
    {
      if copyFutures[s].Pending? {
        CopyToPinTask(s);
      }
      MoveSlot(s, layer, other);
      if s == |batches| - 1 {
        gpuPage := (gpuPage + 1) % 2;
      }
    }

    /** The copy from the pinned buffer to the current GPU page. */
    method MoveSlot(s: nat, ghost layer: nat, ghost other: nat)
      requires Shaped() && s < |batches| && Landed(z, |batches|, pin, s, layer)
      requires Filling(z, cache, gpuPage, layer, SlotStart(z, |batches|, s), other)
      modifies `cache
      ensures Filling(z, cache, gpuPage, layer, SlotEnd(z, |batches|, s), other)
    {
      var lo, hi := SlotStart(z, |batches|, s), SlotEnd(z, |batches|, s);
      SlotFills(z, |batches|, cache, pin, gpuPage, s, layer, other);
      cache := Blit(cache, PageStartRow(z, gpuPage) + lo, pin[lo..hi]);
    }

    /** Submits the copy of slot `s` of `layer` to the copy worker. */
    method PrefetchExpertsToPin(layer: nat, s: nat)
      requires Shaped() && s < |batches| && !copyFutures[s].Pending?
      modifies `copyFutures, `copyLog
      ensures copyFutures == old(copyFutures)[s := Pending(layer)]
      ensures copyLog == old(copyLog) + [(layer, s)]
    {
      copyFutures := copyFutures[s := Pending(layer)];
      copyLog := copyLog + [(layer, s)];
    }

    // -------------------------------------------------------------------- steps on micro-batches

    /** A whole prefill layer; the keys and values land in the GPU line of the micro-batch. */
    method Layer(i: nat, k: nat)
      requires Shaped() && |mapping| == z.layers && i < z.layers && k < |batches|
      modifies `batches, `lines
      ensures var b := old(batches[k]);
              var (h, res, c) := net.prefill(i, ReadExperts(z, cache, mapping[i]), b.input, b.hidden, b.residual);
              && lines == old(lines)[k % 2 := Some(c)]
              && batches == old(batches)[k :=
                   if i < z.layers - 1 then b.(hidden := Some(h), residual := Some(res))
                   else b.(hidden := None, hiddenCpu := None, residual := None, outputs := [net.sample(k, 0, h)])]
    {
      var b := batches[k];
      var (h, res, c) := net.prefill(i, ReadExperts(z, cache, mapping[i]), b.input, b.hidden, b.residual);
      lines := lines[k % 2 := Some(c)];
      if i < z.layers - 1 {
        batches := batches[k := b.(hidden := Some(h), residual := Some(res))];
      } else {
        batches := batches[k := b.(hidden := None, hiddenCpu := None, residual := None,
                                   outputs := [net.sample(k, 0, h)])];
      }
    }

    /** Stores the GPU line of micro-batch `k` as its cache of layer `i`. */
    method OffloadKvCache(i: nat, k: nat)
      requires Shaped() && i < z.layers && k < |batches| && lines[k % 2].Some?
      modifies `batches
      ensures batches == old(batches)[k := old(batches[k]).(kv := old(batches[k]).kv[i := lines[k % 2].value])]
    {
      batches := batches[k := batches[k].(kv := batches[k].kv[i := lines[k % 2].value])];
    }

    method OffloadHiddenPrefill(k: nat)
      requires k < |batches|
      modifies `batches
      ensures var b := old(batches[k]);
              batches == old(batches)[k := if b.hidden.Some? then b.(hiddenCpu := b.hidden, hidden := None) else b]
    {
      var b := batches[k];
      if b.hidden.Some? {
        batches := batches[k := b.(hiddenCpu := b.hidden, hidden := None)];
      }
    }

    method LoadHiddenPrefill(k: nat)
      requires k < |batches|
      modifies `batches
      ensures var b := old(batches[k]);
              batches == old(batches)[k := if b.hiddenCpu.Some? then b.(hidden := b.hiddenCpu) else b]
    {
      var b := batches[k];
      if b.hiddenCpu.Some? {
        batches := batches[k := b.(hidden := b.hiddenCpu)];
      }
    }

    /** Every micro-batch continues from its last token; every sequence gets one longer, and nothing else changes. */
    method PrepareForDecode()
      requires Shaped()
      modifies `batches
      ensures batches == seq(|old(batches)|, k requires 0 <= k < |old(batches)| => NextInput(old(batches[k])))
      ensures forall k :: 0 <= k < |batches| ==> Continues(old(batches)[k], batches[k])
    {
      var before := batches;
      var next: seq<MicroBatch<V>> := [];
      for k := 0 to |batches|
        invariant next == seq(k, m requires 0 <= m < k => NextInput(before[m]))
      {
        next := next + [NextInput(batches[k])];
      }
      batches := next;
    }

    method PreAttention(i: nat, k: nat)
      requires k < |batches| == |qkv|
      modifies `batches, `qkv
      ensures var b := old(batches[k]);
              var (q, res) := net.pre(i, b.input, b.seqLens, b.hidden, b.residual);
              qkv == old(qkv)[k := Some(q)] && batches == old(batches)[k := b.(residual := Some(res))]
    {
      var b := batches[k];
      var (q, res) := net.pre(i, b.input, b.seqLens, b.hidden, b.residual);
      qkv := qkv[k := Some(q)];
      batches := batches[k := b.(residual := Some(res))];
    }

    method OffloadQkv(k: nat)
      requires k < |qkv| <= |qkvPin| && qkv[k].Some?
      modifies `qkvPin
      ensures qkvPin == old(qkvPin)[k := qkv[k].value]
    {
      qkvPin := qkvPin[k := qkv[k].value];
    }

    /** Submits the attention of layer `i` to the CPU worker. */
    method CpuAttention(i: nat, k: nat)
      requires k < |attnFutures| && !attnFutures[k].Pending?
      modifies `attnFutures
      ensures attnFutures == old(attnFutures)[k := Pending(i)]
    {
      attnFutures := attnFutures[k := Pending(i)];
    }

    /** Awaits the attention of micro-batch `k` and loads its output. */
    method LoadHidden(k: nat)
      requires Shaped() && k < |batches| && attnFutures[k] != Absent
      modifies `batches, `hiddenPin, `attnFutures
      ensures Shaped() && |batches| == old(|batches|) && |hiddenPin| == old(|hiddenPin|)
      ensures attnFutures == old(attnFutures)[k := Done]
      ensures var p := old(Settlement()[k]);
              Settlement() == old(Settlement())[k := Progress(p.batch.(hidden := Some(p.attn)), p.attn)]
    {
      if attnFutures[k].Pending? {
        CpuAttentionTask(k);
      }
      batches := batches[k := batches[k].(hidden := Some(hiddenPin[k]))];
    }

    method PostAttention(i: nat, k: nat)
      requires z.Valid() && |mapping| == z.layers && i < z.layers && k < |batches|
      modifies `batches
      ensures batches == old(batches)[k :=
                Network.PostAttention(net, z, k, i, ReadExperts(z, cache, mapping[i]), old(batches[k]))]
    {
      var b := batches[k];
      var (h, res) := net.post(i, ReadExperts(z, cache, mapping[i]), b.hidden, b.residual);
      if i < z.layers - 1 {
        batches := batches[k := b.(hidden := Some(h), residual := Some(res))];
      } else {
        batches := batches[k := b.(hidden := None, residual := None,
                                   outputs := b.outputs + [net.sample(k, |b.outputs|, h)])];
      }
    }

    /** The slot whose pinned copy is submitted after step (i, k), when one is due. */
    function GetPrefetchE2pIdx(i: nat, k: nat): (r: Option<(nat, nat)>)
      reads this
      requires z.Valid() && i < z.layers && k < |batches|
    {
      if k + 2 < |batches| then Some(((i + 1) % z.layers, k + 2))
      else if i + 1 < z.layers then Some(((i + 2) % z.layers, (k + 2) % |batches|))
      else None
    }

    /** Drops the micro-batches with all that belongs to them; streaming starts from page 0 again. */
    method Reset()
      modifies this`gpuPage, this`batches, this`qkv, this`attnFutures, this`copyFutures
      ensures gpuPage == 0 && batches == [] && qkv == [] && attnFutures == copyFutures == []
    {
      gpuPage := 0;
      batches, qkv, attnFutures, copyFutures := [], [], [], [];
    }
  }
}
