/**
 The serving loop: prefill, then decode steps that run attention two micro-batches ahead and stream
 the weights of the next layer. Whatever the two workers do in between, every micro-batch gets what
 plain layer-by-layer execution computes - provided there are more than two of them.
*/
module ModelRpc {
  import opened Basics
  import opened Network
  import opened TokenStream
  import opened WeightLayout
  import opened Schedule
  import opened ExecutionEngine

  /** Attention futures when step (i, k) is next: those two steps ahead are submitted, the others awaited. */
  ghost predicate FuturesAt(z: Sizes, fs: seq<Future>, i: nat, k: nat) {
    forall kk :: 0 <= kk < |fs| ==> FutureAt(z, |fs|, fs[kk], i, k, kk)
  }

  predicate FutureAt(z: Sizes, slots: nat, f: Future, i: nat, k: nat, kk: nat) {
    var d := LayersDone(i, k, kk);
    if UnderWay(z, slots, d, Distance(slots, k, kk)) then f != Absent
    else !f.Pending? && (d > 0 ==> f != Absent)
  }

  /** Pinned slots when step (i, k) is next: the copies two steps ahead are submitted. */
  ghost predicate SlotsAt(z: Sizes, pin: seq<Row>, fs: seq<Future>, i: nat, k: nat)
    requires z.Valid()
  {
    forall s :: 0 <= s < |fs| ==> SlotAt(z, |fs|, pin, fs[s], i, k, s)
  }

  ghost predicate SlotAt(z: Sizes, slots: nat, pin: seq<Row>, f: Future, i: nat, k: nat, s: nat)
    requires z.Valid() && s < slots
  {
    var d := LayersDone(i, k, s);
    if d < z.layers && Distance(slots, k, s) < 2 then Relayed(z, slots, pin, f, s, Wrap(z, d + 1))
    else !f.Pending?
  }

  /** Rows of a page filled by its first `k` slots. */
  function FilledRows(z: Sizes, slots: nat, k: nat): nat
    requires z.Valid() && slots > 0
  {
    if k == slots then z.PageRows() else SlotStart(z, slots, k)
  }

  /** The GPU pages when step (i, k) is next. */
  ghost predicate PagesAt(z: Sizes, slots: nat, cache: seq<Row>, gpuPage: nat, i: nat, k: nat) {
    && z.Valid() && k <= slots && slots > 0
    && gpuPage == (if k < slots then (i + 1) % 2 else i % 2)
    && Filling(z, cache, (i + 1) % 2, Wrap(z, i + 1), FilledRows(z, slots, k), i)
  }

  /** The first `n` pin copies of a decode step: the streamed layers in order, every slot once. */
  function CopyOrder(z: Sizes, slots: nat, n: nat): seq<(nat, nat)>
    requires z.layers > 0 && slots > 0
  {
    seq(n, (q: nat) => (Wrap(z, q / slots + 1), q % slots))
  }

  lemma CopyAt(z: Sizes, slots: nat, i: nat, k: nat)
    requires z.layers > 0 && k < slots
    ensures CopyOrder(z, slots, Times(i, slots) + k + 1) == CopyOrder(z, slots, Times(i, slots) + k)
            + [(Wrap(z, i + 1), k)]
  {
    TimesIsProduct(i, slots);
    DivMod(slots, i, k);
  }

  /** The first half of a decode layer of micro-batch `k`. */
  method StartAttention<V(!new)>(e: ExecutionEngine<V>, i: nat, k: nat)
    requires e.Shaped() && i < e.z.layers && k < |e.batches| && !e.attnFutures[k].Pending?
    modifies e`batches, e`qkv, e`qkvPin, e`hiddenPin, e`attnFutures
    ensures e.Shaped() && |e.batches| == old(|e.batches|)
    ensures e.Settlement() == old(e.Settlement())[k := Started(e.net, i, old(e.Settlement())[k])]
    ensures e.attnFutures[k] != Absent && Later(old(e.attnFutures)[k := e.attnFutures[k]], e.attnFutures)
  {
    e.CpuWorker();
    e.PreAttention(i, k);
    e.CpuWorker();
    e.OffloadQkv(k);
    e.CpuWorker();
    e.CpuAttention(i, k);
  }

  /** The copy of slot `k` has been awaited, all other slots keep what they hold or were promised. */
  ghost predicate PinMoved(z: Sizes, k: nat, pin0: seq<Row>, f0: seq<Future>, pin1: seq<Row>, f1: seq<Future>) {
    && z.Valid() && k < |f0| && Later(f0[k := Done], f1)
    && PinKept(z, pin0, f0, pin1, f1)
  }

  /** Brings slot `k` of the next layer to the GPU; the current layer stays readable. */
  method StreamSlot<V(!new)>(e: ExecutionEngine<V>, i: nat, k: nat)
    requires e.Shaped() && i < e.z.layers && k < |e.batches|
    requires PagesAt(e.z, |e.batches|, e.cache, e.gpuPage, i, k)
    requires Relayed(e.z, |e.batches|, e.pin, e.copyFutures[k], k, Wrap(e.z, i + 1))
    modifies e`cache, e`gpuPage, e`pin, e`copyFutures
    ensures e.Shaped() && PagesAt(e.z, |e.batches|, e.cache, e.gpuPage, i, k + 1)
    ensures PinMoved(e.z, k, old(e.pin), old(e.copyFutures), e.pin, e.copyFutures)
  {
    e.CopyWorker();
    e.PrefetchExpertsDecode(k, Wrap(e.z, i + 1), i);
    SlotBounds(e.z, |e.batches|, k);
    e.CopyWorker();
  }

  /** The second half of layer `i` of micro-batch `k`, with the weights that layer really has. */
  method RunExperts<V(!new)>(e: ExecutionEngine<V>, i: nat, k: nat)
    requires e.Shaped() && e.Mapped() && i < e.z.layers && k < |e.batches| && e.attnFutures[k] == Done
    requires PagesAt(e.z, |e.batches|, e.cache, e.gpuPage, i, k)
    requires Relayed(e.z, |e.batches|, e.pin, e.copyFutures[k], k, Wrap(e.z, i + 1))
    modifies e`batches, e`hiddenPin, e`attnFutures, e`cache, e`gpuPage, e`pin, e`copyFutures
    ensures e.Shaped() && |e.batches| == old(|e.batches|) && Later(old(e.attnFutures), e.attnFutures)
    ensures var p := old(e.Settlement()[k]);
            e.Settlement() == old(e.Settlement())[k :=
              Progress(Network.PostAttention(e.net, e.z, k, i, TrueRows(e.z, i), p.batch), p.attn)]
    ensures PagesAt(e.z, |e.batches|, e.cache, e.gpuPage, i, k + 1)
    ensures PinMoved(e.z, k, old(e.pin), old(e.copyFutures), e.pin, e.copyFutures)
  {
    StreamSlot(e, i, k);
    e.CpuWorker();
    ReadsTrueRows(e.z, e.cache, e.mapping[i], i);
    e.PostAttention(i, k);
  }

  /** The rest of layer `i` of micro-batch `k`, once its attention was submitted. */
  method FinishLayer<V(!new)>(e: ExecutionEngine<V>, i: nat, k: nat)
    requires e.Shaped() && e.Mapped() && i < e.z.layers && k < |e.batches| && e.attnFutures[k] != Absent
    requires PagesAt(e.z, |e.batches|, e.cache, e.gpuPage, i, k)
    requires Relayed(e.z, |e.batches|, e.pin, e.copyFutures[k], k, Wrap(e.z, i + 1))
    modifies e`batches, e`hiddenPin, e`attnFutures, e`cache, e`gpuPage, e`pin, e`copyFutures
    ensures e.Shaped() && |e.batches| == old(|e.batches|)
    ensures e.Settlement() == old(e.Settlement())[k := PipelineLayer(e.net, e.z, k, i, false, old(e.Settlement())[k])]
    ensures Later(old(e.attnFutures)[k := Done], e.attnFutures)
    ensures PagesAt(e.z, |e.batches|, e.cache, e.gpuPage, i, k + 1)
    ensures PinMoved(e.z, k, old(e.pin), old(e.copyFutures), e.pin, e.copyFutures)
  {
    e.CpuWorker();
    e.LoadHidden(k);
    e.CpuWorker();
    RunExperts(e, i, k);
  }

  /** The first half of the layer that is two steps ahead of (i, k), if the loop issues it. */
  method LookAhead<V(!new)>(e: ExecutionEngine<V>, i: nat, k: nat)
    requires e.Shaped() && i < e.z.layers && k < |e.batches|
    requires |e.batches| > 2 ==> !e.attnFutures[TwoAhead(|e.batches|, k)].Pending?
    modifies e`batches, e`qkv, e`qkvPin, e`hiddenPin, e`attnFutures
    ensures e.Shaped() && |e.batches| == old(|e.batches|)
    ensures var n, m, l := |e.batches|, TwoAhead(|e.batches|, k), LayerAhead(|e.batches|, i, k);
            if n > 2 && l < e.z.layers then
              && e.Settlement() == old(e.Settlement())[m := Started(e.net, l, old(e.Settlement())[m])]
              && e.attnFutures[m] != Absent && Later(old(e.attnFutures)[m := e.attnFutures[m]], e.attnFutures)
            else e.Settlement() == old(e.Settlement()) && e.attnFutures == old(e.attnFutures)
  {
    var n, m := |e.batches|, TwoAhead(|e.batches|, k);
    if n > 2 {
      if k + 2 < n {
        StartAttention(e, i, m);
      } else if i < e.z.layers - 1 {
        StartAttention(e, i + 1, m);
      }
    }
  }

  /** The pin copies submitted after step (i, k): one, or none at the very end. */
  function CopiesAhead(z: Sizes, slots: nat, i: nat, k: nat): (r: seq<(nat, nat)>)
    requires k < slots
    ensures |r| <= 1
  {
    if k + 2 < slots then [(Wrap(z, i + 1), TwoAhead(slots, k))]
    else if i + 1 < z.layers then [(Wrap(z, i + 2), TwoAhead(slots, k))]
    else []
  }

  /** Submits the pin copy that is due after step (i, k). */
  method PinAhead<V(!new)>(e: ExecutionEngine<V>, i: nat, k: nat)
    requires e.Shaped() && i < e.z.layers && k < |e.batches|
    requires !e.copyFutures[TwoAhead(|e.batches|, k)].Pending?
    modifies e`copyFutures, e`copyLog
    ensures e.Shaped() && e.copyLog == old(e.copyLog) + CopiesAhead(e.z, |e.batches|, i, k)
    ensures var c := CopiesAhead(e.z, |e.batches|, i, k);
            e.copyFutures == if c == [] then old(e.copyFutures)
                             else old(e.copyFutures)[TwoAhead(|e.batches|, k) := Pending(c[0].0)]
  {
    WrapIsModulo(e.z, i + 1);
    WrapIsModulo(e.z, i + 2);
    match e.GetPrefetchE2pIdx(i, k)
    case Some((layer, slot)) => e.PrefetchExpertsToPin(layer, slot);
    case None =>
  }

  /** One step as seen by the attention future of micro-batch `kk`. */
  lemma FutureStep(z: Sizes, slots: nat, i: nat, k: nat, kk: nat, f: Future, f1: Future)
    requires i < z.layers && k < slots && kk < slots
    requires FutureAt(z, slots, f, i, k, kk)
    requires if slots > 2 && kk == TwoAhead(slots, k) && LayerAhead(slots, i, k) < z.layers then f1 != Absent
             else if kk == k then f1 == Done
             else f1 == f || (f.Pending? && f1 == Done)
    ensures FutureAt(z, slots, f1, i, k + 1, kk)
  {
  }

  /** The same for slot `s` of the pinned buffer. */
  lemma SlotStep(z: Sizes, slots: nat, i: nat, k: nat, s: nat,
                 pin: seq<Row>, f: Future, pin1: seq<Row>, f1: Future, f2: Future)
    requires z.Valid() && i < z.layers && k < slots && s < slots
    requires SlotAt(z, slots, pin, f, i, k, s)
    requires forall layer :: Relayed(z, slots, pin, f, s, layer) ==> Relayed(z, slots, pin1, f1, s, layer)
    requires f1 == (if s == k then Done else f) || (s != k && f.Pending? && f1 == Done)
    requires var m := TwoAhead(slots, k);
             f2 == if s == m && k + 2 < slots then Pending(Wrap(z, i + 1))
                   else if s == m && i + 1 < z.layers then Pending(Wrap(z, i + 2))
                   else f1
    ensures SlotAt(z, slots, pin1, f2, i, k + 1, s)
  {
    var m := TwoAhead(slots, k);
    if slots == 1 {
      assert m == 0;
    } else if slots == 2 {
      assert m == k;
    }
  }

  /** The same for all slots: contents and futures `p0, f0` before, `p1, f1` after the copy of `k`, `f2` at the end. */
  lemma SlotsStep(z: Sizes, i: nat, k: nat, p0: seq<Row>, f0: seq<Future>, p1: seq<Row>, f1: seq<Future>,
                  f2: seq<Future>)
    requires z.Valid() && i < z.layers && k < |f0| == |f2|
    requires SlotsAt(z, p0, f0, i, k) && PinMoved(z, k, p0, f0, p1, f1)
    requires var c := CopiesAhead(z, |f0|, i, k);
             f2 == if c == [] then f1 else f1[TwoAhead(|f0|, k) := Pending(c[0].0)]
    ensures SlotsAt(z, p1, f2, i, k + 1)
  {
    forall s | 0 <= s < |f0|
      ensures SlotAt(z, |f0|, p1, f2[s], i, k + 1, s)
    {
      SlotStep(z, |f0|, i, k, s, p0, f0[s], p1, f1[s], f2[s]);
    }
  }

  /** The pinned-buffer side of step (i, k), given the buffer and its futures before the step. */
  method StepSlots<V(!new)>(e: ExecutionEngine<V>, i: nat, k: nat, ghost p0: seq<Row>, ghost f0: seq<Future>)
    requires e.Shaped() && i < e.z.layers && k < |e.batches| == |f0|
    requires SlotsAt(e.z, p0, f0, i, k) && PinMoved(e.z, k, p0, f0, e.pin, e.copyFutures)
    modifies e`copyFutures, e`copyLog
    ensures e.Shaped() && SlotsAt(e.z, e.pin, e.copyFutures, i, k + 1)
    ensures e.copyLog == old(e.copyLog) + CopiesAhead(e.z, |e.batches|, i, k)
  {
    ghost var m, f1 := TwoAhead(|f0|, k), e.copyFutures;
    assert SlotAt(e.z, |f0|, p0, f0[m], i, k, m);
    PinAhead(e, i, k);
    SlotsStep(e.z, i, k, p0, f0, e.pin, f1, e.copyFutures);
  }

  /** The attention side of step (i, k). */
  method StepBatches<V(!new)>(e: ExecutionEngine<V>, i: nat, k: nat)
    requires e.Shaped() && e.Mapped() && i < e.z.layers && k < |e.batches|
    requires FuturesAt(e.z, e.attnFutures, i, k)
    requires PagesAt(e.z, |e.batches|, e.cache, e.gpuPage, i, k)
    requires Relayed(e.z, |e.batches|, e.pin, e.copyFutures[k], k, Wrap(e.z, i + 1))
    modifies e`batches, e`qkv, e`qkvPin, e`hiddenPin, e`attnFutures, e`cache, e`gpuPage, e`pin, e`copyFutures
    ensures e.Shaped() && |e.batches| == old(|e.batches|)
    ensures e.Settlement() == ScheduleStep(e.net, e.z, i, k, old(e.Settlement()))
    ensures FuturesAt(e.z, e.attnFutures, i, k + 1)
    ensures PagesAt(e.z, |e.batches|, e.cache, e.gpuPage, i, k + 1)
    ensures PinMoved(e.z, k, old(e.pin), old(e.copyFutures), e.pin, e.copyFutures)
  {
    ghost var n, m, fs := |e.batches|, TwoAhead(|e.batches|, k), e.attnFutures;
    assert FutureAt(e.z, n, fs[k], i, k, k) && FutureAt(e.z, n, fs[m], i, k, m);
    FinishLayer(e, i, k);
    LookAhead(e, i, k);
    forall kk | 0 <= kk < n
      ensures FutureAt(e.z, n, e.attnFutures[kk], i, k + 1, kk)
    {
      FutureStep(e.z, n, i, k, kk, fs[kk], e.attnFutures[kk]);
    }
  }

  /** Pin copies submitted when step (i, k) is next. */
  function Submitted(z: Sizes, slots: nat, i: nat, k: nat): nat {
    var n := Times(i, slots) + k + (if slots < 2 then slots else 2);
    if n < Times(z.layers, slots) then n else Times(z.layers, slots)
  }

  /** The copy submitted after step (i, k) is the next one in order. */
  lemma LogStep(z: Sizes, slots: nat, i: nat, k: nat)
    requires z.Valid() && i < z.layers && k < slots
    ensures CopyOrder(z, slots, Submitted(z, slots, i, k + 1)) == CopyOrder(z, slots, Submitted(z, slots, i, k)) +
              CopiesAhead(z, slots, i, k)
  {
    TimesGrows(i + 1, z.layers, slots);
    if k + 2 < slots {
      CopyAt(z, slots, i, k + 2);
    } else if i + 1 < z.layers {
      TimesGrows(i + 2, z.layers, slots);
      if slots == 2 {
        assert TwoAhead(slots, k) == k;
      } else if slots == 1 {
        assert TwoAhead(slots, k) == 0;
      }
      CopyAt(z, slots, i + 1, TwoAhead(slots, k));
    }
  }

  /** The whole pipeline when step (i, k) is next; `log` is what was submitted in earlier decode steps. */
  ghost predicate StepAt<V(!new)>(e: ExecutionEngine<V>, first: seq<Progress<V>>, log: seq<(nat, nat)>, i: nat, k: nat)
    reads e
  {
    && e.Shaped() && e.Mapped() && i < e.z.layers && k <= |e.batches| == |first| && Sized(e.z, first)
    && e.Settlement() == Scheduled(e.net, e.z, i, k, first)
    && FuturesAt(e.z, e.attnFutures, i, k)
    && PagesAt(e.z, |first|, e.cache, e.gpuPage, i, k)
    && SlotsAt(e.z, e.pin, e.copyFutures, i, k)
    && e.copyLog == log + CopyOrder(e.z, |first|, Submitted(e.z, |first|, i, k))
  }

  /** One iteration of the inner decode loop. */
  method DecodeIteration<V(!new)>(e: ExecutionEngine<V>, i: nat, k: nat,
                                  ghost first: seq<Progress<V>>, ghost log: seq<(nat, nat)>)
    requires StepAt(e, first, log, i, k) && k < |first|
    modifies e`batches, e`qkv, e`qkvPin, e`hiddenPin, e`attnFutures,
             e`cache, e`gpuPage, e`pin, e`copyFutures, e`copyLog
    ensures StepAt(e, first, log, i, k + 1)
  {
    ghost var n, pin, cs := |first|, e.pin, e.copyFutures;
    assert SlotAt(e.z, n, pin, cs[k], i, k, k);
    StepBatches(e, i, k);
    StepSlots(e, i, k, pin, cs);
    LogStep(e.z, n, i, k);
  }

  /** The end of layer `i` is the start of layer `i + 1`. */
  lemma LayerTurn<V(!new)>(e: ExecutionEngine<V>, first: seq<Progress<V>>, log: seq<(nat, nat)>, i: nat)
    requires StepAt(e, first, log, i, |first|) && i + 1 < e.z.layers
    ensures StepAt(e, first, log, i + 1, 0)
  {
    var n := |first|;
    PageTurned(e.z, e.cache, (i + 1) % 2, i + 1, Wrap(e.z, i + 2));
    assert 1 - (i + 1) % 2 == (i + 2) % 2 == i % 2;
    forall s | 0 <= s < n
      ensures SlotAt(e.z, n, e.pin, e.copyFutures[s], i + 1, 0, s)
      ensures FutureAt(e.z, n, e.attnFutures[s], i + 1, 0, s)
    {
      assert SlotAt(e.z, n, e.pin, e.copyFutures[s], i, n, s);
      assert FutureAt(e.z, n, e.attnFutures[s], i, n, s);
    }
  }

  /** The pipeline at the start of layer `i`, or past the last layer. */
  ghost predicate LayerAt<V(!new)>(e: ExecutionEngine<V>, first: seq<Progress<V>>, log: seq<(nat, nat)>, i: nat)
    reads e
  {
    if i < e.z.layers then StepAt(e, first, log, i, 0) else i > 0 && StepAt(e, first, log, i - 1, |first|)
  }

  /** The inner decode loop. */
  method DecodeOneLayer<V(!new)>(e: ExecutionEngine<V>, i: nat, ghost first: seq<Progress<V>>,
                                 ghost log: seq<(nat, nat)>)
    requires StepAt(e, first, log, i, 0)
    modifies e`batches, e`qkv, e`qkvPin, e`hiddenPin, e`attnFutures,
             e`cache, e`gpuPage, e`pin, e`copyFutures, e`copyLog
    ensures LayerAt(e, first, log, i + 1)
  {
    for k := 0 to |e.batches|
      invariant StepAt(e, first, log, i, k)
    {
      DecodeIteration(e, i, k, first, log);
    }
    if i + 1 < e.z.layers {
      LayerTurn(e, first, log, i);
    }
  }

  /** Between two decode steps: no task is pending, and the weights of layer 0 are on page 0. */
  ghost predicate Ready<V(!new)>(e: ExecutionEngine<V>)
    reads e
  {
    && e.Shaped() && e.Loaded() && e.gpuPage == 1
    && PageStands(e.z, e.cache, 0, 0, e.z.PageRows())
    && (forall k :: 0 <= k < |e.batches| ==> !e.attnFutures[k].Pending? && !e.copyFutures[k].Pending?)
  }

  /** The prologue when micro-batch `k` is next. */
  ghost predicate PrologueAt<V(!new)>(e: ExecutionEngine<V>, first: seq<Progress<V>>, k: nat)
    reads e
  {
    && e.Shaped() && k <= |first| == |e.batches| && Sized(e.z, first)
    && e.Settlement() == PrologueSteps(e.net, e.z, k, first)
    && (forall kk :: 0 <= kk < |first| ==> if kk < k then e.attnFutures[kk] != Absent else !e.attnFutures[kk].Pending?)
    && (forall s :: 0 <= s < |first| ==>
          if s < k then Relayed(e.z, |first|, e.pin, e.copyFutures[s], s, 1) else !e.copyFutures[s].Pending?)
  }

  method PrologueIteration<V(!new)>(e: ExecutionEngine<V>, k: nat, ghost first: seq<Progress<V>>)
    requires PrologueAt(e, first, k) && k < |first|
    modifies e`batches, e`qkv, e`qkvPin, e`hiddenPin, e`attnFutures, e`pin, e`copyFutures, e`copyLog
    ensures PrologueAt(e, first, k + 1) && e.copyLog == old(e.copyLog) + [(1, k)]
  {
    StartAttention(e, 0, k);
    e.PrefetchExpertsToPin(1, k);
    e.CopyWorker();
  }

  lemma FirstCopies(z: Sizes, n: nat, k: nat, log: seq<(nat, nat)>, now: seq<(nat, nat)>)
    requires z.Valid() && k < n && now == log + CopyOrder(z, n, k)
    ensures now + [(1, k)] == log + CopyOrder(z, n, k + 1)
  {
    CopyAt(z, n, 0, k);
    assert CopyOrder(z, n, k + 1) == CopyOrder(z, n, k) + [(1, k)];
  }

  /** Attention of layer 0 and pin copies of layer 1 for the first two micro-batches. */
  method Prologue<V(!new)>(e: ExecutionEngine<V>)
    requires Ready(e)
    modifies e`batches, e`qkv, e`qkvPin, e`hiddenPin, e`attnFutures, e`pin, e`copyFutures, e`copyLog
    ensures StepAt(e, old(e.Settlement()), old(e.copyLog), 0, 0)
  {
    ghost var first := e.Settlement();
    var n := |e.batches|;
    for k := 0 to if n < 2 then n else 2
      invariant PrologueAt(e, first, k) && |first| == n
      invariant e.copyLog == old(e.copyLog) + CopyOrder(e.z, n, k)
    {
      FirstCopies(e.z, n, k, old(e.copyLog), e.copyLog);
      PrologueIteration(e, k, first);
    }
    PrologueDone(e, first, old(e.copyLog));
  }

  lemma PrologueDone<V(!new)>(e: ExecutionEngine<V>, first: seq<Progress<V>>, log: seq<(nat, nat)>)
    requires PrologueAt(e, first, if |first| < 2 then |first| else 2)
    requires e.copyLog == log + CopyOrder(e.z, |first|, if |first| < 2 then |first| else 2)
    requires e.Loaded() && e.gpuPage == 1 && PageStands(e.z, e.cache, 0, 0, e.z.PageRows())
    ensures StepAt(e, first, log, 0, 0)
  {
    PageTurned(e.z, e.cache, 0, 0, 1);
    TimesGrows(2, e.z.layers, |first|);
  }

  /** A decode step: prologue, then all layers for all micro-batches. */
  method Decode<V(!new)>(e: ExecutionEngine<V>)
    requires Ready(e)
    modifies e`batches, e`qkv, e`qkvPin, e`hiddenPin, e`attnFutures,
             e`cache, e`gpuPage, e`pin, e`copyFutures, e`copyLog
    ensures Ready(e) && |e.batches| == old(|e.batches|)
    ensures forall k :: 0 <= k < |e.batches| ==>
              e.batches[k] == PipelineStep(e.net, e.z, k, |e.batches| > 2, old(e.batches)[k])
    ensures e.copyLog == old(e.copyLog) + CopyOrder(e.z, |e.batches|, Times(e.z.layers, |e.batches|))
  {
    ghost var log, before := e.copyLog, e.batches;
    e.PrepareForDecode();
    ghost var first := e.Settlement();
    Prologue(e);
    DecodeLayers(e, first, log);
    StepDone(e, first, log, before);
  }

  method DecodeLayers<V(!new)>(e: ExecutionEngine<V>, ghost first: seq<Progress<V>>, ghost log: seq<(nat, nat)>)
    requires LayerAt(e, first, log, 0)
    modifies e`batches, e`qkv, e`qkvPin, e`hiddenPin, e`attnFutures,
             e`cache, e`gpuPage, e`pin, e`copyFutures, e`copyLog
    ensures LayerAt(e, first, log, e.z.layers)
  {
    for i := 0 to e.z.layers
      invariant LayerAt(e, first, log, i)
    {
      DecodeOneLayer(e, i, first, log);
    }
  }

  /** After the last layer nothing is pending and every micro-batch has gone through the whole step. */
  lemma StepDone<V(!new)>(e: ExecutionEngine<V>, first: seq<Progress<V>>, log: seq<(nat, nat)>,
                          before: seq<MicroBatch<V>>)
    requires e.z.Valid() && StepAt(e, first, log, e.z.layers - 1, |first|)
    requires |before| == |first|
    requires forall k :: 0 <= k < |first| ==> |before[k].kv| == e.z.layers && first[k].batch == NextInput(before[k])
    ensures Ready(e)
    ensures forall k :: 0 <= k < |first| ==> e.batches[k] == PipelineStep(e.net, e.z, k, |first| > 2, before[k])
  {
    var i := e.z.layers - 1;
    forall k | 0 <= k < |first|
      ensures !e.attnFutures[k].Pending? && !e.copyFutures[k].Pending?
    {
      assert FutureAt(e.z, |first|, e.attnFutures[k], i, |first|, k);
      assert SlotAt(e.z, |first|, e.pin, e.copyFutures[k], i, |first|, k);
    }
    forall k | 0 <= k < |first|
      ensures e.batches[k] == PipelineStep(e.net, e.z, k, |first| > 2, before[k])
    {
      ScheduledStep(e.net, e.z, first, k, before[k]);
    }
  }

  /** The schedule takes a micro-batch through one decode step of the pipeline. */
  lemma ScheduledStep<V(!new)>(net: Net<V>, z: Sizes, first: seq<Progress<V>>, k: nat, b: MicroBatch<V>)
    requires z.layers > 0 && Sized(z, first) && k < |first| && |b.kv| == z.layers && first[k].batch == NextInput(b)
    ensures Scheduled(net, z, z.layers - 1, |first|, first)[k].batch == PipelineStep(net, z, k, |first| > 2, b)
  {
    ScheduledToTheEnd(net, z, first, k);
    BufferForgotten(net, z, k, z.layers, |first| > 2, first[k].batch, first[k].attn, b.input);
    assert first[k] == Progress(first[k].batch, first[k].attn);
  }

  // ------------------------------------------------------------------------------------ prefill

  /** New micro-batches carry no activations. */
  ghost predicate Unstarted<V(!new)>(z: Sizes, b: MicroBatch<V>) {
    b.hidden == b.hiddenCpu == b.residual == None && |b.kv| == z.layers
  }

  /** A micro-batch during prefill: of several, only the next one to run is on the GPU. */
  ghost predicate PrefillAt<V(!new)>(net: Net<V>, z: Sizes, slots: nat, b: MicroBatch<V>, b0: MicroBatch<V>, i: nat,
                                     k: nat, kk: nat)
    requires i < z.layers && Unstarted(z, b0) && k <= slots && kk < slots
  {
    var p := PrefillLayers(net, z, kk, LayersDone(i, k, kk), b0);
    var next := if k == slots then 0 else k;
    if slots == 1 then b == p
    else b == p.(hiddenCpu := p.hidden, hidden := if kk == next then p.hidden else None)
  }

  ghost predicate PrefillHead<V(!new)>(e: ExecutionEngine<V>, before: seq<MicroBatch<V>>, i: nat, k: nat)
    reads e
  {
    && e.Shaped() && e.Loaded() && i < e.z.layers && k <= |e.batches| == |before|
    && e.gpuPage == (i + 1) % 2 && PageStands(e.z, e.cache, i % 2, i, e.z.PageRows())
    && (forall kk :: 0 <= kk < |before| ==> Unstarted(e.z, before[kk]))
    && (forall kk :: 0 <= kk < |before| ==> PrefillAt(e.net, e.z, |before|, e.batches[kk], before[kk], i, k, kk))
  }

  /** After the last layer every micro-batch is as after layer-by-layer prefill. */
  ghost predicate PrefillDone<V(!new)>(e: ExecutionEngine<V>, before: seq<MicroBatch<V>>)
    reads e
  {
    && e.Shaped() && e.Loaded() && |e.batches| == |before|
    && e.gpuPage == 1 && PageStands(e.z, e.cache, 0, 0, e.z.PageRows())
    && (forall k :: 0 <= k < |before| ==> Unstarted(e.z, before[k]))
    && (forall k :: 0 <= k < |before| ==> e.batches[k] == PrefillLayers(e.net, e.z, k, e.z.layers, before[k]))
  }

  /** The micro-batches at the end of a layer are ready for the next one, or done. */
  lemma PrefillTurn<V(!new)>(e: ExecutionEngine<V>, before: seq<MicroBatch<V>>, i: nat)
    requires PrefillHead(e, before, i, |before|)
    ensures forall kk :: 0 <= kk < |before| ==>
              if i + 1 < e.z.layers then PrefillAt(e.net, e.z, |before|, e.batches[kk], before[kk], i + 1, 0, kk)
              else e.batches[kk] == PrefillLayers(e.net, e.z, kk, e.z.layers, before[kk])
  {
    forall kk | 0 <= kk < |before|
      ensures if i + 1 < e.z.layers then PrefillAt(e.net, e.z, |before|, e.batches[kk], before[kk], i + 1, 0, kk)
              else e.batches[kk] == PrefillLayers(e.net, e.z, kk, e.z.layers, before[kk])
    {
      assert PrefillAt(e.net, e.z, |before|, e.batches[kk], before[kk], i, |before|, kk);
    }
  }

  /** One layer of one micro-batch, its cache stored. */
  method PrefillCompute<V(!new)>(e: ExecutionEngine<V>, i: nat, k: nat)
    requires e.Shaped() && e.Loaded() && i < e.z.layers && k < |e.batches|
    requires PageStands(e.z, e.cache, i % 2, i, e.z.PageRows())
    modifies e`batches, e`lines
    ensures e.Shaped()
    ensures var b, r := old(e.batches)[k], PrefillLayer(e.net, e.z, k, i, old(e.batches)[k]);
            e.batches == old(e.batches)[k := if i < e.z.layers - 1 then r else r.(hiddenCpu := None)]
  {
    ReadsTrueRows(e.z, e.cache, e.mapping[i], i);
    e.Layer(i, k);
    e.OffloadKvCache(i, k);
  }

  /** One step of prefill as seen by micro-batch `kk`. */
  lemma PrefillStep<V(!new)>(net: Net<V>, z: Sizes, slots: nat, b0: MicroBatch<V>, b: MicroBatch<V>, b1: MicroBatch<V>,
                             i: nat, k: nat, kk: nat)
    requires i < z.layers && Unstarted(z, b0) && k < slots && kk < slots && |b.kv| == z.layers
    requires PrefillAt(net, z, slots, b, b0, i, k, kk)
    requires
      if kk == k then
        var r := PrefillLayer(net, z, k, i, b);
        var r1 := if i < z.layers - 1 then r else r.(hiddenCpu := None);
        b1 == if slots > 1 && r1.hidden.Some? then r1.(hiddenCpu := r1.hidden, hidden := None) else r1
      else if kk == OneAhead(slots, k) && b.hiddenCpu.Some? then b1 == b.(hidden := b.hiddenCpu)
      else b1 == b
    ensures PrefillAt(net, z, slots, b1, b0, i, k + 1, kk)
  {
  }

  /** The same for all micro-batches. */
  lemma PrefillsStep<V(!new)>(net: Net<V>, z: Sizes, before: seq<MicroBatch<V>>, b: seq<MicroBatch<V>>,
                              b1: seq<MicroBatch<V>>, i: nat, k: nat)
    requires i < z.layers && k < |before| == |b| == |b1|
    requires forall kk :: 0 <= kk < |before| ==> Unstarted(z, before[kk])
    requires forall kk :: 0 <= kk < |before| ==> |b[kk].kv| == z.layers
    requires forall kk :: 0 <= kk < |before| ==> PrefillAt(net, z, |before|, b[kk], before[kk], i, k, kk)
    requires
      var n, m := |before|, OneAhead(|before|, k);
      var r := PrefillLayer(net, z, k, i, b[k]);
      var r1 := if i < z.layers - 1 then r else r.(hiddenCpu := None);
      if n == 1 then b1 == b[k := r1]
      else
        var r2 := if r1.hidden.Some? then r1.(hiddenCpu := r1.hidden, hidden := None) else r1;
        b1 == b[k := r2][m := if b[m].hiddenCpu.Some? then b[m].(hidden := b[m].hiddenCpu) else b[m]]
    ensures forall kk :: 0 <= kk < |before| ==> PrefillAt(net, z, |before|, b1[kk], before[kk], i, k + 1, kk)
  {
    forall kk | 0 <= kk < |before|
      ensures PrefillAt(net, z, |before|, b1[kk], before[kk], i, k + 1, kk)
    {
      PrefillStep(net, z, |before|, before[kk], b[kk], b1[kk], i, k, kk);
    }
  }

  /** One iteration of the inner prefill loop. */
  method PrefillIteration<V(!new)>(e: ExecutionEngine<V>, i: nat, k: nat, ghost before: seq<MicroBatch<V>>)
    requires PrefillHead(e, before, i, k) && k < |before|
    modifies e`batches, e`lines
    ensures PrefillHead(e, before, i, k + 1)
  {
    ghost var b0 := e.batches;
    PrefillCompute(e, i, k);
    if |e.batches| > 1 {
      e.OffloadHiddenPrefill(k);
      e.LoadHiddenPrefill(OneAhead(|e.batches|, k));
    }
    PrefillsStep(e.net, e.z, before, b0, e.batches, i, k);
  }

  /** All micro-batches through layer `i`, then the weights of the next layer. */
  method PrefillOneLayer<V(!new)>(e: ExecutionEngine<V>, i: nat, ghost before: seq<MicroBatch<V>>)
    requires PrefillHead(e, before, i, 0)
    modifies e`batches, e`lines, e`cache, e`gpuPage
    ensures if i + 1 < e.z.layers then PrefillHead(e, before, i + 1, 0) else PrefillDone(e, before)
  {
    for k := 0 to |e.batches|
      invariant PrefillHead(e, before, i, k)
    {
      PrefillIteration(e, i, k, before);
    }
    PrefillTurn(e, before, i);
    WrapIsModulo(e.z, i + 1);
    e.PrefetchExperts((i + 1) % e.z.layers, 0);
  }

  /** Prefill: the weights of layer 0, then all layers for all micro-batches. */
  method Prefill<V(!new)>(e: ExecutionEngine<V>)
    requires e.Shaped() && e.Loaded() && e.gpuPage == 0
    requires forall k :: 0 <= k < |e.batches| ==> Unstarted(e.z, e.batches[k])
    modifies e`batches, e`lines, e`cache, e`gpuPage
    ensures PrefillDone(e, old(e.batches))
  {
    ghost var before := e.batches;
    e.PrefetchExperts(0, 0);
    for i := 0 to e.z.layers
      invariant if i < e.z.layers then PrefillHead(e, before, i, 0) else PrefillDone(e, before)
    {
      PrefillOneLayer(e, i, before);
    }
  }

  // ------------------------------------------------------------------------------- whole batches

  /** Decode steps after prefill: one when there is a single micro-batch, whatever was asked for. */
  function DecodeSteps(slots: nat, genLen: int): nat {
    if slots <= 1 then 1 else if genLen < 1 then 0 else genLen - 1
  }

  /**
   Whether a generation length gets what layer-by-layer execution computes, for every network: only more
   than two micro-batches do, or two that never decode.
  */
  lemma PlainForGenLen(z: Sizes, slots: nat, genLen: int)
    requires z.Valid() && slots > 0
    ensures var t := DecodeSteps(slots, genLen);
            (forall net: Net<int>, k: nat, b: MicroBatch<int> :: |b.kv| == z.layers ==>
               PipelineServe(net, z, k, slots > 2, t, b) == Serve(net, z, k, t, b))
            <==> slots > 2 || (slots == 2 && genLen <= 1)
  {
    PlainIffMoreThanTwo(z, slots, DecodeSteps(slots, genLen));
  }

  /** Every micro-batch is as after prefill and `t` decode steps of the pipeline. */
  ghost predicate ServedSoFar<V(!new)>(net: Net<V>, z: Sizes, t: nat, mbs: seq<MicroBatch<V>>, bs: seq<MicroBatch<V>>) {
    && |bs| == |mbs|
    && forall k :: 0 <= k < |mbs| ==> |mbs[k].kv| == z.layers && bs[k] == PipelineServe(net, z, k, |mbs| > 2, t, mbs[k])
  }

  lemma ServedMore<V(!new)>(net: Net<V>, z: Sizes, t: nat, mbs: seq<MicroBatch<V>>, b0: seq<MicroBatch<V>>,
                            b1: seq<MicroBatch<V>>)
    requires ServedSoFar(net, z, t, mbs, b0) && |b1| == |b0|
    requires forall k :: 0 <= k < |b0| ==> |b0[k].kv| == z.layers && b1[k] == PipelineStep(net, z, k, |b0| > 2, b0[k])
    ensures ServedSoFar(net, z, t + 1, mbs, b1)
  {
  }

  /** With more than two micro-batches this is plain execution. */
  lemma ServedPlainly<V(!new)>(net: Net<V>, z: Sizes, t: nat, mbs: seq<MicroBatch<V>>, bs: seq<MicroBatch<V>>)
    requires ServedSoFar(net, z, t, mbs, bs) && |mbs| > 2
    ensures forall k :: 0 <= k < |mbs| ==> |mbs[k].kv| == z.layers && bs[k] == Serve(net, z, k, t, mbs[k])
  {
    forall k | 0 <= k < |mbs|
      ensures |mbs[k].kv| == z.layers && bs[k] == Serve(net, z, k, t, mbs[k])
    {
      AllStartedServes(net, z, k, t, mbs[k]);
    }
  }

  lemma ServedPrefill<V(!new)>(net: Net<V>, z: Sizes, mbs: seq<MicroBatch<V>>, bs: seq<MicroBatch<V>>)
    requires |bs| == |mbs|
    requires forall k :: 0 <= k < |mbs| ==> |mbs[k].kv| == z.layers
    requires forall k :: 0 <= k < |mbs| ==> bs[k] == PrefillLayers(net, z, k, z.layers, mbs[k])
    ensures ServedSoFar(net, z, 0, mbs, bs)
  {
  }

  /** One more decode step for all of them. */
  method DecodeMore<V(!new)>(e: ExecutionEngine<V>, step: nat, ghost mbs: seq<MicroBatch<V>>)
    requires Ready(e) && ServedSoFar(e.net, e.z, step, mbs, e.batches)
    modifies e`batches, e`qkv, e`qkvPin, e`hiddenPin, e`attnFutures,
             e`cache, e`gpuPage, e`pin, e`copyFutures, e`copyLog
    ensures Ready(e) && ServedSoFar(e.net, e.z, step + 1, mbs, e.batches)
  {
    ghost var before := e.batches;
    Decode(e);
    ServedMore(e.net, e.z, step, mbs, before, e.batches);
  }

  /** The decode loop. */
  method DecodeAll<V(!new)>(e: ExecutionEngine<V>, steps: nat, ghost mbs: seq<MicroBatch<V>>)
    requires Ready(e) && ServedSoFar(e.net, e.z, 0, mbs, e.batches)
    modifies e`batches, e`qkv, e`qkvPin, e`hiddenPin, e`attnFutures,
             e`cache, e`gpuPage, e`pin, e`copyFutures, e`copyLog
    ensures Ready(e) && ServedSoFar(e.net, e.z, steps, mbs, e.batches)
  {
    var step := 0;
    while step < steps
      invariant step <= steps && Ready(e) && ServedSoFar(e.net, e.z, step, mbs, e.batches)
    {
      DecodeMore(e, step, mbs);
      step := step + 1;
    }
  }

  /** A request gets the number of tokens it asked for exactly in these cases. */
  predicate EnoughTokens(slots: nat, genLen: int) {
    if slots > 1 then genLen >= 1 else genLen == 2
  }

  lemma TokensAsAsked<V(!new)>(net: Net<V>, z: Sizes, slots: nat, genLen: int, k: nat, b: MicroBatch<V>)
    requires z.Valid() && |b.kv| == z.layers
    ensures var r := PipelineServe(net, z, k, slots > 2, DecodeSteps(slots, genLen), b);
            |r.outputs| == DecodeSteps(slots, genLen) + 1 && (|r.outputs| == genLen <==> EnoughTokens(slots, genLen))
  {
    TokensServed(net, z, k, slots > 2, DecodeSteps(slots, genLen), b);
  }

  /** What a whole batch ends with. */
  ghost predicate Served<V(!new)>(net: Net<V>, z: Sizes, genLen: int, mbs: seq<MicroBatch<V>>, bs: seq<MicroBatch<V>>) {
    var steps := DecodeSteps(|mbs|, genLen);
    && ServedSoFar(net, z, steps, mbs, bs)
    && (|mbs| > 2 && z.layers > 0 ==> forall k :: 0 <= k < |mbs| ==>
          && |mbs[k].kv| == z.layers && bs[k] == Serve(net, z, k, steps, mbs[k])
          && (Unstarted(z, mbs[k]) ==>
                (bs[k].outputs, bs[k].kv) == Generated(net, z, k, mbs[k].input, mbs[k].seqLens, steps)))
    && (forall k :: 0 <= k < |mbs| ==> Advanced(mbs[k], bs[k], steps))
    && (forall k :: 0 <= k < |mbs| ==> (|bs[k].outputs| == genLen <==> EnoughTokens(|mbs|, genLen)))
  }

  lemma ServedAtLast<V(!new)>(net: Net<V>, z: Sizes, genLen: int, mbs: seq<MicroBatch<V>>, bs: seq<MicroBatch<V>>)
    requires z.Valid() && ServedSoFar(net, z, DecodeSteps(|mbs|, genLen), mbs, bs)
    ensures Served(net, z, genLen, mbs, bs)
  {
    if |mbs| > 2 {
      ServedPlainly(net, z, DecodeSteps(|mbs|, genLen), mbs, bs);
      forall k | 0 <= k < |mbs| && Unstarted(z, mbs[k])
        ensures (bs[k].outputs, bs[k].kv) ==
                Generated(net, z, k, mbs[k].input, mbs[k].seqLens, DecodeSteps(|mbs|, genLen))
      {
        ServeGenerates(net, z, k, DecodeSteps(|mbs|, genLen), mbs[k]);
      }
    }
    forall k | 0 <= k < |mbs|
      ensures Advanced(mbs[k], bs[k], DecodeSteps(|mbs|, genLen))
      ensures |bs[k].outputs| == genLen <==> EnoughTokens(|mbs|, genLen)
    {
      Advances(net, z, k, |mbs| > 2, DecodeSteps(|mbs|, genLen), mbs[k]);
      TokensAsAsked(net, z, |mbs|, genLen, k, mbs[k]);
    }
  }

  /**
   Serves a list of micro-batches. With more than two of them each one ends exactly as after plain
   layer-by-layer prefill and decode; with one or two, as `PipelineServe` describes.
  */
  method BatchForwardStep<V(!new)>(e: ExecutionEngine<V>, mbs: seq<MicroBatch<V>>, genLen: int)
    requires e.Installed() && e.Loaded() && e.gpuPage == 0
    requires 0 < |mbs| <= e.capacity
    requires forall k :: 0 <= k < |mbs| ==> Unstarted(e.z, mbs[k])
    modifies e
    ensures Ready(e) && Served(e.net, e.z, genLen, mbs, e.batches)
  {
    e.SetMicroBatches(mbs);
    Prefill(e);
    assert forall k :: 0 <= k < |mbs| ==> Unstarted(e.z, mbs[k]) && |mbs[k].kv| == e.z.layers;
    ServedPrefill(e.net, e.z, mbs, e.batches);
    DecodeAll(e, DecodeSteps(|mbs|, genLen), mbs);
    ServedAtLast(e.net, e.z, genLen, mbs, e.batches);
  }

  /** The micro-batches of one request to the server, and how many tokens to generate. */
  datatype Job<V> = Job(mbs: seq<MicroBatch<V>>, genLen: int)

  /** Serves one batch after the other; the engine is reset in between. */
  method ExposedStep<V(!new)>(e: ExecutionEngine<V>, jobs: seq<Job<V>>) returns (results: seq<seq<MicroBatch<V>>>)
    requires e.Installed() && e.Loaded() && e.gpuPage == 0
    requires forall n :: 0 <= n < |jobs| ==> 0 < |jobs[n].mbs| <= e.capacity
    requires forall n, k :: 0 <= n < |jobs| && 0 <= k < |jobs[n].mbs| ==> Unstarted(e.z, jobs[n].mbs[k])
    modifies e
    ensures e.Installed() && e.Loaded() && e.gpuPage == 0 && |results| == |jobs|
    ensures forall n :: 0 <= n < |jobs| ==> Served(e.net, e.z, jobs[n].genLen, jobs[n].mbs, results[n])
  {
    results := [];
    for n := 0 to |jobs|
      invariant e.Installed() && e.Loaded() && e.gpuPage == 0 && |results| == n
      invariant forall m :: 0 <= m < n ==> Served(e.net, e.z, jobs[m].genLen, jobs[m].mbs, results[m])
    {
      BatchForwardStep(e, jobs[n].mbs, jobs[n].genLen);
      results := results + [e.batches];
      e.Reset();
    }
  }
}
