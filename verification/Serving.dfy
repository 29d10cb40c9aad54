/**
 From a queue of requests to the keys and values that attention reads: packing, the buffers of the context, and
 the loop over prefill and decode.
*/
module Serving {
  import opened Basics
  import opened MicroBatches
  import opened Admission
  import opened KvLayout
  import opened KvPool
  import Network
  import ModelRpc

  /** What attention produces in a layer: for the prompt of a request, and for its generated tokens. */
  datatype Feed<!V> = Feed(prompt: (nat, Req) -> seq<V>, token: (nat, Req, nat) -> V)

  ghost predicate FeedFits<V(!new)>(feed: Feed<V>) {
    forall i: nat, r: Req :: |feed.prompt(i, r)| == r.promptLen
  }

  /** The prompt of a request and `t` generated tokens. */
  function HistoryOf<V>(feed: Feed<V>, i: nat, r: Req, t: nat): seq<V> {
    if t == 0 then feed.prompt(i, r) else HistoryOf(feed, i, r, t - 1) + [feed.token(i, r, t - 1)]
  }

  function PromptsOf<V>(feed: Feed<V>, mbs: seq<Partition>, i: nat): (r: seq<seq<seq<V>>>)
    ensures |r| == |mbs|
    ensures forall k :: 0 <= k < |mbs| ==> |r[k]| == |mbs[k]|
    ensures forall k, m :: 0 <= k < |mbs| && 0 <= m < |mbs[k]| ==> r[k][m] == feed.prompt(i, mbs[k][m])
  {
    seq(|mbs|, k requires 0 <= k < |mbs| =>
      seq(|mbs[k]|, m requires 0 <= m < |mbs[k]| => feed.prompt(i, mbs[k][m])))
  }

  function TokensOf<V>(feed: Feed<V>, mbs: seq<Partition>, i: nat, t: nat): (r: seq<seq<V>>)
    ensures |r| == |mbs|
    ensures forall k :: 0 <= k < |mbs| ==> |r[k]| == |mbs[k]|
    ensures forall k, m :: 0 <= k < |mbs| && 0 <= m < |mbs[k]| ==> r[k][m] == feed.token(i, mbs[k][m], t)
  {
    seq(|mbs|, k requires 0 <= k < |mbs| =>
      seq(|mbs[k]|, m requires 0 <= m < |mbs[k]| => feed.token(i, mbs[k][m], t)))
  }

  function StreamOf<V(!new)>(feed: Feed<V>, mbs: seq<Partition>, layers: nat, steps: nat): (s: Stream<V>)
    ensures |s.prompts| == layers && |s.tokens| == steps
    ensures forall i :: 0 <= i < layers ==> s.prompts[i] == PromptsOf(feed, mbs, i)
    ensures forall t :: 0 <= t < steps ==> |s.tokens[t]| == layers
    ensures forall t, i :: 0 <= t < steps && 0 <= i < layers ==> s.tokens[t][i] == TokensOf(feed, mbs, i, t)
  {
    Stream(seq(layers, i requires 0 <= i < layers => PromptsOf(feed, mbs, i)),
           seq(steps, t requires 0 <= t < steps =>
             seq(layers, i requires 0 <= i < layers => TokensOf(feed, mbs, i, t))))
  }

  lemma StreamFits<V(!new)>(limits: Limits, feed: Feed<V>, mbs: seq<Partition>, layers: nat, steps: nat)
    requires FeedFits(feed)
    ensures StreamFor(LayoutOf(limits, mbs), layers, StreamOf(feed, mbs, layers, steps))
  {
  }

  /** The lists of the stream are those of the feed. */
  lemma {:induction false} HistoryIs<V(!new)>(limits: Limits, feed: Feed<V>, mbs: seq<Partition>, layers: nat,
      steps: nat, i: nat, k: nat, m: nat, t: nat)
    requires StreamFor(LayoutOf(limits, mbs), layers, StreamOf(feed, mbs, layers, steps))
    requires i < layers && k < |mbs| && m < |mbs[k]| && t <= steps
    ensures History(LayoutOf(limits, mbs), layers, StreamOf(feed, mbs, layers, steps), i, k, t)[m]
         == HistoryOf(feed, i, mbs[k][m], t)
  {
    if t > 0 {
      HistoryIs(limits, feed, mbs, layers, steps, i, k, m, t - 1);
    }
  }

  /** What the caller grants: in warm-up the requests must fit, otherwise enough of them must fit alone. */
  ghost predicate Servable(limits: Limits, queue: seq<Req>) {
    && limits.ubs > 0 && limits.nUb > 0 && (forall r :: r in queue ==> r.promptLen <= r.inputLen)
    && if |queue| < limits.ubs then
         queue != [] && Offset(PromptLens(queue), limits.genLen, |queue|) <= limits.line
       else
         Positive(queue) && FitCount(limits, queue) >= limits.nUb
  }

  /** The micro-batches that such a queue is split into. */
  function Split(limits: Limits, queue: seq<Req>): seq<Partition> {
    if |queue| < limits.ubs then [queue]
    else
      var p := Pack(limits, Sorted(queue));
      p.closed + p.open
  }

  lemma SplitRight(limits: Limits, queue: seq<Req>)
    requires Servable(limits, queue)
    ensures var mbs := Split(limits, queue);
            0 < |mbs| <= limits.nUb && AllBusy(mbs) && Fitting(LayoutOf(limits, mbs))
  {
    if |queue| < limits.ubs {
      assert PromptLens([queue][0]) == PromptLens(queue);
    } else {
      PackedFits(limits, queue);
      MicroBatchesRight(limits, queue);
      NoneEmptyIffEnoughFit(limits, queue);
    }
  }

  /**
   The window from `lo` on for `len` positions is that of request `r` after `t` decode steps: its prompt, and in the
   layers whose attention is issued all tokens generated for it.
  */
  ghost predicate WindowRight<V(!new)>(feed: Feed<V>, slots: nat, i: nat, r: Req, t: nat, mem: seq<V>, lo: nat,
                                       len: nat) {
    && len == r.promptLen + t && lo + len <= |mem| && mem[lo..lo + r.promptLen] == feed.prompt(i, r)
    && (Attends(slots, i) ==> mem[lo..lo + len] == HistoryOf(feed, i, r, t))
  }

  lemma {:induction false} HistoryShape<V(!new)>(feed: Feed<V>, i: nat, r: Req, t: nat)
    requires FeedFits(feed)
    ensures |HistoryOf(feed, i, r, t)| == r.promptLen + t
            && HistoryOf(feed, i, r, t)[..r.promptLen] == feed.prompt(i, r)
  {
    if t > 0 {
      HistoryShape(feed, i, r, t - 1);
    }
  }

  /** A request's list as the loop leaves it in a layer. */
  lemma ListOfRequest<V(!new)>(limits: Limits, feed: Feed<V>, mbs: seq<Partition>, layers: nat, steps: nat, i: nat,
                               k: nat, m: nat, t: nat, mem: seq<V>)
    requires i < layers && k < |mbs| && m < |mbs[k]| && t <= steps
    requires StreamFor(LayoutOf(limits, mbs), layers, StreamOf(feed, mbs, layers, steps))
    requires var l := LayoutOf(limits, mbs);
             LayerLists(l, mem, 0, |mbs|, Histories(l, layers, StreamOf(feed, mbs, layers, steps), i, t))
    ensures ListAt(mem, Start(LayoutOf(limits, mbs), k, m), HistoryOf(feed, i, mbs[k][m], t))
  {
    var l := LayoutOf(limits, mbs);
    var want := Histories(l, layers, StreamOf(feed, mbs, layers, steps), i, t);
    HistoryIs(limits, feed, mbs, layers, steps, i, k, m, t);
    assert Lists(l, mem, k, want[k]) && want[k][m] == HistoryOf(feed, i, mbs[k][m], t);
    assert ListOf(l, mem, k, m, want[k][m]);
  }

  /** Where a batch that is ready says that the window of a request is. */
  lemma WindowPlace(l: Layout, b: Batch, k: nat, m: nat, t: nat, size: nat)
    requires Fitting(l) && BatchReady(b, l, k, t) && m < |l.lens[k]| && t <= l.gen && Times(|l.lens|, l.line) <= size
    ensures m < |b.startLoc| && m < |b.seqLens|
    ensures b.startLoc[m] == Start(l, k, m) && b.seqLens[m] == l.lens[k][m] + t
            && Start(l, k, m) + l.lens[k][m] + t <= size
  {
    RegionInLine(l, k, m);
    TimesGrows(k + 1, |l.lens|, l.line);
  }

  /** A window with the right list in it is right. */
  lemma WindowHolds<V(!new)>(feed: Feed<V>, slots: nat, i: nat, r: Req, steps: nat, mem: seq<V>, lo: nat, len: nat)
    requires FeedFits(feed) && len == r.promptLen + steps && lo + len <= |mem|
    requires ListAt(mem, lo, HistoryOf(feed, i, r, if Attends(slots, i) then steps else 0))
    ensures WindowRight(feed, slots, i, r, steps, mem, lo, len)
  {
    var t := if Attends(slots, i) then steps else 0;
    HistoryShape(feed, i, r, t);
    PrefixOfList(mem, lo, HistoryOf(feed, i, r, t), r.promptLen);
  }

  lemma PrefixOfList<V(!new)>(mem: seq<V>, at: nat, want: seq<V>, n: nat)
    requires ListAt(mem, at, want) && n <= |want|
    ensures mem[at..at + n] == want[..n]
  {
    assert mem[at..at + n] == mem[at..at + |want|][..n];
  }

  method NewBatches(limits: Limits, mbs: seq<Partition>) returns (batches: seq<Batch>)
    requires AllBusy(mbs)
    ensures Matching(batches, LayoutOf(limits, mbs)) && fresh(batches)
  {
    batches := [];
    for k := 0 to |mbs|
      invariant |batches| == k && fresh(batches)
      invariant forall j, m :: 0 <= j < m < k ==> batches[j] != batches[m]
      invariant forall m :: 0 <= m < k ==> batches[m].lens == PromptLens(mbs[m])
    {
      var b := new Batch(PromptLens(mbs[k]));
      batches := batches + [b];
    }
  }

  /** The pool of a context: two lines on the GPU, and one line per micro-batch on the CPU for every layer. */
  method NewPool<V(!new)>(limits: Limits, avgPrompt: nat, layers: nat, empty: V) returns (pool: TokenToKVPool<V>)
    requires limits.ubs > 0 && limits.genLen > 0 && limits.line == limits.ubs * (avgPrompt + limits.genLen)
    ensures fresh(pool) && pool.Valid() && pool.curStartLoc == 0 && pool.curCl == 0 && |pool.kvDataCpu| == layers
    ensures pool.line == limits.line && pool.cpuSize == Times(limits.nUb, limits.line)
  {
    ContextSizes(limits.ubs, limits.nUb, avgPrompt, limits.genLen);
    var gpuSize := 2 * (limits.ubs * (avgPrompt + limits.genLen));
    var cpuSize := limits.nUb * limits.ubs * (avgPrompt + limits.genLen);
    pool := new TokenToKVPool(gpuSize, cpuSize, seq(2 * (gpuSize / 2), _ => empty),
                              seq(layers, _ => seq(cpuSize / (gpuSize / 2) * (gpuSize / 2), _ => empty)));
  }

  /** The windows of all requests in all layers. */
  ghost predicate AllRight<V(!new)>(feed: Feed<V>, mbs: seq<Partition>, steps: nat, batches: seq<Batch>,
                                    mems: seq<seq<V>>)
    reads batches
  {
    |batches| == |mbs| &&
    forall i: nat, k: nat, m: nat :: i < |mems| && k < |mbs| && m < |mbs[k]| ==>
      && m < |batches[k].startLoc| && m < |batches[k].seqLens|
      && WindowRight(feed, |mbs|, i, mbs[k][m], steps, mems[i], batches[k].startLoc[m], batches[k].seqLens[m])
  }

  /** The loop for micro-batches that fit. */
  method ServeMicroBatches<V(!new)>(limits: Limits, mbs: seq<Partition>, layers: nat, steps: nat, feed: Feed<V>,
                                    batches: seq<Batch>, pool: TokenToKVPool<V>)
    requires FeedFits(feed) && steps <= limits.genLen && Matching(batches, LayoutOf(limits, mbs))
    requires Roomy(pool, LayoutOf(limits, mbs)) && pool.curStartLoc == 0 && pool.curCl == 0
             && |pool.kvDataCpu| == layers
    modifies pool, batches
    ensures |pool.kvDataCpu| == layers && AllRight(feed, mbs, steps, batches, pool.kvDataCpu)
  {
    ghost var l, s := LayoutOf(limits, mbs), StreamOf(feed, mbs, layers, steps);
    StreamFits(limits, feed, mbs, layers, steps);
    var filled := ServeAll(pool, batches, LayoutOf(limits, mbs), StreamOf(feed, mbs, layers, steps));
    forall i: nat, k: nat, m: nat | i < layers && k < |mbs| && m < |mbs[k]|
      ensures m < |batches[k].startLoc| && m < |batches[k].seqLens|
      ensures WindowRight(feed, |mbs|, i, mbs[k][m], steps, pool.kvDataCpu[i], batches[k].startLoc[m],
                          batches[k].seqLens[m])
    {
      assert LayerLists(l, filled[i], 0, |mbs|, Histories(l, layers, s, i, 0));
      var t := if Attends(|mbs|, i) then steps else 0;
      ListOfRequest(limits, feed, mbs, layers, steps, i, k, m, t, pool.kvDataCpu[i]);
      WindowPlace(l, batches[k], k, m, steps, pool.cpuSize);
      WindowHolds(feed, |mbs|, i, mbs[k][m], steps, pool.kvDataCpu[i], batches[k].startLoc[m], batches[k].seqLens[m]);
    }
  }

  /** Splits a queue into micro-batches that fit their lines, none of them empty. */
  method SplitQueue(limits: Limits, queue: seq<Req>) returns (mbs: seq<Partition>, aborted: seq<Req>)
    requires Servable(limits, queue)
    ensures mbs == Split(limits, queue) && multiset(Flat(mbs)) + multiset(aborted) == multiset(queue)
    ensures if |queue| < limits.ubs then |mbs| == 1 && aborted == [] else |mbs| == limits.nUb
    ensures 0 < |mbs| <= limits.nUb && AllBusy(mbs) && Fitting(LayoutOf(limits, mbs))
  {
    mbs, aborted := CreateMicroBatches(limits, queue);
    SplitRight(limits, queue);
    if |queue| < limits.ubs {
      FlatOne(queue);
    } else {
      MicroBatchesRight(limits, queue);
    }
  }

  /**
   Serves a queue: every request is aborted or in one micro-batch, and the window that attention reads for every
   admitted request is its own, in all layers and whatever the others do.
  */
  method ServeQueue<V(!new)>(limits: Limits, avgPrompt: nat, layers: nat, queue: seq<Req>, feed: Feed<V>, empty: V)
    returns (mbs: seq<Partition>, aborted: seq<Req>, batches: seq<Batch>, pool: TokenToKVPool<V>)
    requires limits.genLen > 0 && limits.line == limits.ubs * (avgPrompt + limits.genLen)
    requires FeedFits(feed) && Servable(limits, queue)
    ensures multiset(Flat(mbs)) + multiset(aborted) == multiset(queue)
    ensures if |queue| < limits.ubs then |mbs| == 1 && aborted == [] else |mbs| == limits.nUb
    ensures |pool.kvDataCpu| == layers
    ensures AllRight(feed, mbs, ModelRpc.DecodeSteps(|mbs|, limits.genLen), batches, pool.kvDataCpu)
    ensures pool.curStartLoc == 0 && pool.curCl == 0
  {
    mbs, aborted := SplitQueue(limits, queue);
    pool := NewPool(limits, avgPrompt, layers, empty);
    TimesGrows(|mbs|, limits.nUb, limits.line);
    batches := NewBatches(limits, mbs);
    ServeMicroBatches(limits, mbs, layers, ModelRpc.DecodeSteps(|mbs|, limits.genLen), feed, batches, pool);
    pool.Clear();
  }

  ghost predicate SameLength<W>(b: Network.MicroBatch<W>, batch: Batch, m: nat, len: nat)
    reads batch
  {
    m < |b.seqLens| && m < |batch.seqLens| && b.seqLens[m] == batch.seqLens[m] == len
  }

  /**
   The pipeline and the pool advance together: after a batch is served, the length that the pipeline has for a request
   is the length of the window that the pool has for it.
  */
  lemma LengthsAgree<V(!new), W(!new)>(net: Network.Net<W>, z: Network.Sizes, genLen: int, parts: seq<Partition>,
                                       mbs: seq<Network.MicroBatch<W>>, served: seq<Network.MicroBatch<W>>,
                                       feed: Feed<V>, batches: seq<Batch>, mems: seq<seq<V>>)
    requires ModelRpc.Served(net, z, genLen, mbs, served) && |mbs| == |parts|
    requires forall k :: 0 <= k < |parts| ==> mbs[k].seqLens == PromptLens(parts[k])
    requires AllRight(feed, parts, ModelRpc.DecodeSteps(|parts|, genLen), batches, mems) && mems != []
    ensures |served| == |batches| == |parts|
    ensures forall k: nat, m: nat :: k < |parts| && m < |parts[k]| ==>
              SameLength(served[k], batches[k], m, parts[k][m].promptLen + ModelRpc.DecodeSteps(|parts|, genLen))
  {
    var t := ModelRpc.DecodeSteps(|parts|, genLen);
    forall k: nat, m: nat | k < |parts| && m < |parts[k]|
      ensures SameLength(served[k], batches[k], m, parts[k][m].promptLen + t)
    {
      assert Network.Advanced(mbs[k], served[k], t);
      assert WindowRight(feed, |parts|, 0, parts[k][m], t, mems[0], batches[k].startLoc[m], batches[k].seqLens[m]);
    }
  }
}
