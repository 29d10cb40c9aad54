/**
 The transformer as the pipeline sees it: arbitrary numeric functions for the pieces of a layer,
 and plain layer-by-layer execution of one micro-batch, which the pipelined engine must match.
*/
module Network {
  import opened Basics

  /** Row `index` of the packed expert weights of `layer`; the rows of expert `e` are `e * unit ..`. */
  datatype Row = Row(layer: int, index: int)

  /** What the fused kernel reads for one layer: the rows of every expert. */
  type ExpertRows = seq<seq<Row>>

  /**
   The numeric pieces of the model over an arbitrary tensor type. `sample` gets the micro-batch and
   the number of tokens it already produced, so that random sampling is an arbitrary function.
  */
  datatype Net<!V> = Net(
    prefill: (nat, ExpertRows, V, Option<V>, Option<V>) -> (V, V, V),
    pre: (nat, V, seq<nat>, Option<V>, Option<V>) -> (V, V),
    attn: (nat, seq<nat>, V, V) -> (V, V),
    post: (nat, ExpertRows, Option<V>, Option<V>) -> (V, V),
    sample: (nat, nat, V) -> V)

  /** A micro-batch: its inputs, the length of every sequence, activations on GPU and CPU, KV cache by layer, tokens. */
  datatype MicroBatch<V> = MicroBatch(
    input: V, seqLens: seq<nat>,
    hidden: Option<V>, hiddenCpu: Option<V>, residual: Option<V>,
    kv: seq<V>, outputs: seq<V>)

  /** Number of layers, experts per layer, GPU-resident experts per layer, rows per expert. */
  datatype Sizes = Sizes(layers: nat, experts: nat, resident: nat, unit: nat)
  {
    predicate Valid() {
      2 <= layers && layers % 2 == 0 && resident <= experts
    }

    /** Experts of a layer that are streamed rather than resident. */
    function PageSize(): (r: nat)
      requires Valid()
    {
      experts - resident
    }

    /** The same page counted in rows. */
    function PageRows(): nat
      requires Valid()
    {
      Times(PageSize(), unit)
    }

    /** Rows of the resident experts of one layer. */
    function ResidentRows(): nat {
      Times(resident, unit)
    }

    /** Expert slots of the GPU cache: the resident experts of all layers and a double buffer. */
    function CacheSize(): nat
      requires Valid()
    {
      Times(layers, resident) + 2 * PageSize()
    }

    /** The same cache counted in rows. */
    function CacheRows(): nat
      requires Valid()
    {
      Times(layers, ResidentRows()) + 2 * PageRows()
    }
  }

  /** The correct weights of layer `i`. */
  function TrueRows(z: Sizes, i: nat): ExpertRows {
    seq(z.experts, e => seq(z.unit, o => Row(i, e * z.unit + o)))
  }

  // ---------------------------------------------------------------- layer-by-layer execution

  function PrefillLayer<V>(net: Net<V>, z: Sizes, k: nat, i: nat, b: MicroBatch<V>): (r: MicroBatch<V>)
    requires i < z.layers && |b.kv| == z.layers
    ensures |r.kv| == z.layers && r.input == b.input && r.seqLens == b.seqLens && r.hiddenCpu == b.hiddenCpu
  {
    var (h, res, c) := net.prefill(i, TrueRows(z, i), b.input, b.hidden, b.residual);
    var b1 := b.(kv := b.kv[i := c]);
    if i < z.layers - 1 then b1.(hidden := Some(h), residual := Some(res))
    else b1.(hidden := None, residual := None, outputs := [net.sample(k, 0, h)])
  }

  /** The first `n` layers of prefill. */
  function PrefillLayers<V>(net: Net<V>, z: Sizes, k: nat, n: nat, b: MicroBatch<V>): (r: MicroBatch<V>)
    requires n <= z.layers && |b.kv| == z.layers
    ensures |r.kv| == z.layers && r.input == b.input && r.seqLens == b.seqLens && r.hiddenCpu == b.hiddenCpu
  {
    if n == 0 then b else PrefillLayer(net, z, k, n - 1, PrefillLayers(net, z, k, n - 1, b))
  }

  /** The next decode step starts from the token produced last, with every sequence one longer. */
  function NextInput<V>(b: MicroBatch<V>): (r: MicroBatch<V>) {
    b.(input := if b.outputs == [] then b.input else b.outputs[|b.outputs| - 1],
       seqLens := seq(|b.seqLens|, i requires 0 <= i < |b.seqLens| => b.seqLens[i] + 1))
  }

  /** Second half of a decode layer: projection, experts and, after the last layer, sampling. */
  function PostAttention<V>(net: Net<V>, z: Sizes, k: nat, i: nat, rows: ExpertRows,
                            b: MicroBatch<V>): (r: MicroBatch<V>)
    requires i < z.layers
    ensures r.kv == b.kv
  {
    var (h, res) := net.post(i, rows, b.hidden, b.residual);
    if i < z.layers - 1 then b.(hidden := Some(h), residual := Some(res))
    else b.(hidden := None, residual := None, outputs := b.outputs + [net.sample(k, |b.outputs|, h)])
  }

  function DecodeLayer<V>(net: Net<V>, z: Sizes, k: nat, i: nat, b: MicroBatch<V>): (r: MicroBatch<V>)
    requires i < z.layers && |b.kv| == z.layers
    ensures |r.kv| == z.layers
  {
    var (q, res) := net.pre(i, b.input, b.seqLens, b.hidden, b.residual);
    var (a, c) := net.attn(i, b.seqLens, q, b.kv[i]);
    PostAttention(net, z, k, i, TrueRows(z, i),
                  b.(hidden := Some(a), residual := Some(res), kv := b.kv[i := c]))
  }

  function DecodeLayers<V>(net: Net<V>, z: Sizes, k: nat, n: nat, b: MicroBatch<V>): (r: MicroBatch<V>)
    requires n <= z.layers && |b.kv| == z.layers
    ensures |r.kv| == z.layers
  {
    if n == 0 then b else DecodeLayer(net, z, k, n - 1, DecodeLayers(net, z, k, n - 1, b))
  }

  /** One whole decode step. */
  function DecodeStep<V>(net: Net<V>, z: Sizes, k: nat, b: MicroBatch<V>): (r: MicroBatch<V>)
    requires |b.kv| == z.layers
    ensures |r.kv| == z.layers
  {
    DecodeLayers(net, z, k, z.layers, NextInput(b))
  }

  /** Prefill followed by `t` decode steps. */
  function Serve<V>(net: Net<V>, z: Sizes, k: nat, t: nat, b: MicroBatch<V>): (r: MicroBatch<V>)
    requires |b.kv| == z.layers
    ensures |r.kv| == z.layers
  {
    if t == 0 then PrefillLayers(net, z, k, z.layers, b)
    else DecodeStep(net, z, k, Serve(net, z, k, t - 1, b))
  }

  // ------------------------------------------------- what at most two micro-batches really get

  /** A batch together with the attention output last written to its pinned buffer. */
  datatype Progress<V> = Progress(batch: MicroBatch<V>, attn: V)

  /** The attention task of layer `i`, applied to a batch and its pinned query-key-value block. */
  function Attended<V>(net: Net<V>, i: nat, b: MicroBatch<V>, q: V): (r: Progress<V>)
    requires i < |b.kv|
    ensures |r.batch.kv| == |b.kv|
  {
    var (a, c) := net.attn(i, b.seqLens, q, b.kv[i]);
    Progress(b.(kv := b.kv[i := c]), a)
  }

  /** First half of a decode layer: projection and attention. */
  function Started<V>(net: Net<V>, i: nat, p: Progress<V>): (r: Progress<V>)
    requires i < |p.batch.kv|
    ensures |r.batch.kv| == |p.batch.kv|
  {
    var b := p.batch;
    var (q, res) := net.pre(i, b.input, b.seqLens, b.hidden, b.residual);
    Attended(net, i, b.(residual := Some(res)), q)
  }

  /**
   A decode layer that may skip its first half (`starts` false): the attention output of an earlier
   layer is then used again.
  */
  function PipelineLayer<V>(net: Net<V>, z: Sizes, k: nat, i: nat, starts: bool, p: Progress<V>): (r: Progress<V>)
    requires i < z.layers && |p.batch.kv| == z.layers
    ensures |r.batch.kv| == z.layers
  {
    var s := if starts then Started(net, i, p) else p;
    Progress(PostAttention(net, z, k, i, TrueRows(z, i), s.batch.(hidden := Some(s.attn))), s.attn)
  }

  /** `n` layers of which those from 1 on start with their first half only when `all` holds. */
  function PipelineLayers<V>(net: Net<V>, z: Sizes, k: nat, n: nat, all: bool, p: Progress<V>): (r: Progress<V>)
    requires n <= z.layers && |p.batch.kv| == z.layers
    ensures |r.batch.kv| == z.layers
  {
    if n == 0 then p
    else PipelineLayer(net, z, k, n - 1, n == 1 || all, PipelineLayers(net, z, k, n - 1, all, p))
  }

  lemma {:induction false} AllStartedIsPlain<V>(net: Net<V>, z: Sizes, k: nat, n: nat, p: Progress<V>)
    requires n <= z.layers && |p.batch.kv| == z.layers
    ensures PipelineLayers(net, z, k, n, true, p).batch == DecodeLayers(net, z, k, n, p.batch)
  {
    if n > 0 {
      AllStartedIsPlain(net, z, k, n - 1, p);
    }
  }

  /** One decode step as the pipeline performs it; with `all` it is a plain one. */
  function PipelineStep<V>(net: Net<V>, z: Sizes, k: nat, all: bool, b: MicroBatch<V>): (r: MicroBatch<V>)
    requires |b.kv| == z.layers
    ensures |r.kv| == z.layers
  {
    PipelineLayers(net, z, k, z.layers, all, Progress(NextInput(b), b.input)).batch
  }

  /** What stands in the attention buffer before a decode step does not matter. */
  lemma {:induction false} BufferForgotten<V>(net: Net<V>, z: Sizes, k: nat, n: nat, all: bool, b: MicroBatch<V>, a: V,
      a': V)
    requires 0 < n <= z.layers && |b.kv| == z.layers
    ensures PipelineLayers(net, z, k, n, all, Progress(b, a)) == PipelineLayers(net, z, k, n, all, Progress(b, a'))
  {
    if n > 1 {
      BufferForgotten(net, z, k, n - 1, all, b, a, a');
    } else {
      assert PipelineLayers(net, z, k, 0, all, Progress(b, a)) == Progress(b, a);
      assert PipelineLayers(net, z, k, 0, all, Progress(b, a')) == Progress(b, a');
    }
  }

  /** Prefill and `t` decode steps as the pipeline performs them. */
  function PipelineServe<V>(net: Net<V>, z: Sizes, k: nat, all: bool, t: nat, b: MicroBatch<V>): (r: MicroBatch<V>)
    requires |b.kv| == z.layers
    ensures |r.kv| == z.layers
  {
    if t == 0 then PrefillLayers(net, z, k, z.layers, b)
    else PipelineStep(net, z, k, all, PipelineServe(net, z, k, all, t - 1, b))
  }

  lemma AllStartedStep<V>(net: Net<V>, z: Sizes, k: nat, b: MicroBatch<V>)
    requires |b.kv| == z.layers
    ensures PipelineStep(net, z, k, true, b) == DecodeStep(net, z, k, b)
  {
    AllStartedIsPlain(net, z, k, z.layers, Progress(NextInput(b), b.input));
  }

  lemma NextStepAgrees<V>(net: Net<V>, z: Sizes, k: nat, t: nat, b: MicroBatch<V>, c: MicroBatch<V>)
    requires |b.kv| == |c.kv| == z.layers && t > 0
    requires PipelineServe(net, z, k, true, t - 1, b) == c && Serve(net, z, k, t - 1, b) == c
    ensures PipelineServe(net, z, k, true, t, b) == Serve(net, z, k, t, b)
  {
    AllStartedStep(net, z, k, c);
  }

  /** What both end with. */
  lemma {:induction false} BothServe<V>(net: Net<V>, z: Sizes, k: nat, t: nat, b: MicroBatch<V>)
    returns (r: MicroBatch<V>)
    requires |b.kv| == z.layers
    ensures |r.kv| == z.layers && PipelineServe(net, z, k, true, t, b) == r && Serve(net, z, k, t, b) == r
  {
    r := Serve(net, z, k, t, b);
    if t > 0 {
      var c := BothServe(net, z, k, t - 1, b);
      NextStepAgrees(net, z, k, t, b, c);
    }
  }

  lemma AllStartedServes<V>(net: Net<V>, z: Sizes, k: nat, t: nat, b: MicroBatch<V>)
    requires |b.kv| == z.layers
    ensures PipelineServe(net, z, k, true, t, b) == Serve(net, z, k, t, b)
  {
    var r := BothServe(net, z, k, t, b);
  }

  /** A network whose tokens name the layer the last attention output came from. */
  function Witness(): Net<int> {
    Net((i, w, x, h, r) => (0, 0, 0),
        (i, x, len, h, r) => (i, 0),
        (i, len, q, c) => (q, 0),
        (i, w, h: Option<int>, r) => (if h.Some? then h.value else -1, 0),
        (k, t, h) => h)
  }

  lemma {:induction false} StaleAttention(z: Sizes, k: nat, n: nat, p: Progress<int>)
    requires 0 < n <= z.layers && |p.batch.kv| == z.layers
    ensures PipelineLayers(Witness(), z, k, n, false, p).attn == 0
    ensures PipelineLayers(Witness(), z, k, n, true, p).attn == n - 1
  {
    if n == 1 {
      assert PipelineLayers(Witness(), z, k, 0, false, p) == p;
      assert PipelineLayers(Witness(), z, k, 0, true, p) == p;
    } else {
      StaleAttention(z, k, n - 1, p);
    }
  }

  /** With the witness network the last token is the last attention output. */
  lemma LastToken(z: Sizes, k: nat, all: bool, p: Progress<int>)
    requires 0 < z.layers && |p.batch.kv| == z.layers
    ensures var r := PipelineLayers(Witness(), z, k, z.layers, all, p);
            r.batch.outputs != [] && r.batch.outputs[|r.batch.outputs| - 1] == r.attn
  {
  }

  /** The token that a decode step of the witness network ends with. */
  lemma LastOfStep(z: Sizes, k: nat, all: bool, t: nat, b: MicroBatch<int>)
    requires 0 < z.layers && |b.kv| == z.layers && t > 0
    ensures var outputs := PipelineServe(Witness(), z, k, all, t, b).outputs;
            outputs != [] && outputs[|outputs| - 1] == if all then z.layers - 1 else 0
  {
    var c := PipelineServe(Witness(), z, k, all, t - 1, b);
    var p := Progress(NextInput(c), c.input);
    StaleAttention(z, k, z.layers, p);
    LastToken(z, k, all, p);
    assert PipelineServe(Witness(), z, k, all, t, b) == PipelineLayers(Witness(), z, k, z.layers, all, p).batch;
  }

  /** Skipping the first half of later layers is seen in every decoded token. */
  lemma StaleTokenDiffers(z: Sizes, k: nat, t: nat, b: MicroBatch<int>)
    requires z.layers >= 2 && |b.kv| == z.layers && t > 0
    ensures PipelineServe(Witness(), z, k, false, t, b) != Serve(Witness(), z, k, t, b)
  {
    AllStartedServes(Witness(), z, k, t, b);
    LastOfStep(z, k, false, t, b);
    LastOfStep(z, k, true, t, b);
  }

  /**
   After `t` decode steps the pipeline has done what layer-by-layer execution does, for every network,
   exactly when there are more than two micro-batches or no decode step was taken.
  */
  lemma PlainIffMoreThanTwo(z: Sizes, slots: nat, t: nat)
    requires z.Valid()
    ensures (forall net: Net<int>, k: nat, b: MicroBatch<int> :: |b.kv| == z.layers ==>
               PipelineServe(net, z, k, slots > 2, t, b) == Serve(net, z, k, t, b)) <==> slots > 2 || t == 0
  {
    if slots > 2 || t == 0 {
      forall net: Net<int>, k: nat, b: MicroBatch<int> | |b.kv| == z.layers
        ensures PipelineServe(net, z, k, slots > 2, t, b) == Serve(net, z, k, t, b)
      {
        if slots > 2 {
          AllStartedServes(net, z, k, t, b);
        }
      }
    } else {
      var b := MicroBatch(0, [], None, None, None, seq(z.layers, _ => 0), []);
      StaleTokenDiffers(z, 0, t, b);
    }
  }

  // ----------------------------------------------------------------- caches when later layers are skipped

  /** Skipping the first half of later layers leaves their caches alone. */
  lemma {:induction false} SkippedLayersKeep<V>(net: Net<V>, z: Sizes, k: nat, n: nat, p: Progress<V>, i: nat)
    requires n <= z.layers && |p.batch.kv| == z.layers && 0 < i < z.layers
    ensures PipelineLayers(net, z, k, n, false, p).batch.kv[i] == p.batch.kv[i]
  {
    if n > 0 {
      SkippedLayersKeep(net, z, k, n - 1, p, i);
    }
  }

  /** With at most two micro-batches the caches of all layers but the first stay as prefill left them. */
  lemma {:induction false} LaterCachesStay<V>(net: Net<V>, z: Sizes, k: nat, t: nat, b: MicroBatch<V>, i: nat)
    requires |b.kv| == z.layers && 0 < i < z.layers
    ensures PipelineServe(net, z, k, false, t, b).kv[i] == PrefillLayers(net, z, k, z.layers, b).kv[i]
  {
    if t > 0 {
      LaterCachesStay(net, z, k, t - 1, b, i);
      var c := PipelineServe(net, z, k, false, t - 1, b);
      SkippedLayersKeep(net, z, k, z.layers, Progress(NextInput(c), c.input), i);
    }
  }

  /** Every decode step of the pipeline adds one token to the one of prefill, whatever it skips. */
  lemma {:induction false} TokensServed<V>(net: Net<V>, z: Sizes, k: nat, all: bool, t: nat, b: MicroBatch<V>)
    requires |b.kv| == z.layers && z.layers > 0
    ensures |PipelineServe(net, z, k, all, t, b).outputs| == t + 1
  {
    if t > 0 {
      TokensServed(net, z, k, all, t - 1, b);
      var c := PipelineServe(net, z, k, all, t - 1, b);
      TokensOfLayers(net, z, k, z.layers, all, Progress(NextInput(c), c.input));
    }
  }

  lemma {:induction false} TokensOfLayers<V>(net: Net<V>, z: Sizes, k: nat, n: nat, all: bool, p: Progress<V>)
    requires n <= z.layers && |p.batch.kv| == z.layers
    ensures |PipelineLayers(net, z, k, n, all, p).batch.outputs|
         == |p.batch.outputs| + if n == z.layers && n > 0 then 1 else 0
  {
    if n > 0 {
      TokensOfLayers(net, z, k, n - 1, all, p);
    }
  }

  // --------------------------------------------------------------------- what the decode steps start from

  /** Layers keep the input, the lengths and the tokens so far. */
  lemma {:induction false} LayersKeep<V>(net: Net<V>, z: Sizes, k: nat, n: nat, all: bool, p: Progress<V>)
    requires n <= z.layers && |p.batch.kv| == z.layers
    ensures var b := PipelineLayers(net, z, k, n, all, p).batch;
            b.input == p.batch.input && b.seqLens == p.batch.seqLens && p.batch.outputs <= b.outputs
  {
    if n > 0 {
      LayersKeep(net, z, k, n - 1, all, p);
    }
  }

  /**
   After prefill and `t` decode steps every sequence is `t` longer, and the last step read the lengths it then had
   and the token produced just before it.
  */
  ghost predicate Advanced<V>(b0: MicroBatch<V>, b: MicroBatch<V>, t: nat) {
    && |b.seqLens| == |b0.seqLens| && (forall i :: 0 <= i < |b0.seqLens| ==> b.seqLens[i] == b0.seqLens[i] + t)
    && |b.outputs| == t + 1 && b.input == if t == 0 then b0.input else b.outputs[t - 1]
  }

  lemma {:induction false} Advances<V>(net: Net<V>, z: Sizes, k: nat, all: bool, t: nat, b: MicroBatch<V>)
    requires |b.kv| == z.layers && z.layers > 0
    ensures Advanced(b, PipelineServe(net, z, k, all, t, b), t)
    ensures Advanced(b, Serve(net, z, k, t, b), t)
  {
    AllStartedServes(net, z, k, t, b);
    PipelineAdvances(net, z, k, all, t, b);
    PipelineAdvances(net, z, k, true, t, b);
  }

  lemma {:induction false} PipelineAdvances<V>(net: Net<V>, z: Sizes, k: nat, all: bool, t: nat, b: MicroBatch<V>)
    requires |b.kv| == z.layers && z.layers > 0
    ensures Advanced(b, PipelineServe(net, z, k, all, t, b), t)
  {
    TokensServed(net, z, k, all, t, b);
    if t > 0 {
      PipelineAdvances(net, z, k, all, t - 1, b);
      var c := PipelineServe(net, z, k, all, t - 1, b);
      LayersKeep(net, z, k, z.layers, all, Progress(NextInput(c), c.input));
    }
  }
}
