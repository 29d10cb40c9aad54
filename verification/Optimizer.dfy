/**
 The search for a serving policy. For a given batch size a linear program asks which share of the
 experts to keep on the GPU; around it a search looks for the best batch size. Exact reals, decode
 stage, attention on the CPU.
*/
module Optimizer {
  import opened Basics

  datatype Config = Config(s: nat, n: nat, l: nat, h1: nat, h2: nat, nh: nat, nkvh: nat, nExperts: nat, topk: nat,
                           gmem: real, cmem: real, ctogBdw: real, gBdw: real, cBdw: real,
                           gpuFlops: real, cpuFlops: real, tpSize: nat)

  /** What keeps the cost model from dividing by zero; rates are positive. */
  predicate Sensible(c: Config) {
    && 1 <= c.h1 && 1 <= c.nkvh <= c.nh && 2 <= c.n && 1 <= c.l && 1 <= c.tpSize
    && c.ctogBdw > 0.0 && c.gBdw > 0.0 && c.cBdw > 0.0 && c.gpuFlops > 0.0 && c.cpuFlops > 0.0
  }

  // ------------------------------------------------------------------------------- cost coefficients

  lemma Product(a: real, b: real)
    requires a >= 0.0 && b >= 0.0
    ensures a * b >= 0.0
    ensures a > 0.0 && b > 0.0 ==> a * b > 0.0
    ensures a >= 1.0 && b >= 1.0 ==> a * b >= 1.0
  {
    if a >= 1.0 && b >= 1.0 {
      assert (a - 1.0) * b >= 0.0;
    }
  }

  lemma Product3(a: real, b: real, d: real)
    requires a >= 0.0 && b >= 0.0 && d >= 0.0
    ensures a * b * d >= 0.0
  {
    Product(a, b);
    Product(a * b, d);
  }

  function AttentionFlops(batch: real, query: real, kv: real, heads: real, headDim: real): (r: real)
    requires batch >= 0.0 && query >= 0.0 && kv >= 0.0 && heads >= 0.0 && headDim >= 0.0
    ensures r >= 0.0
  {
    Product3(batch, query, kv);
    Product3(batch * query * kv, heads, headDim);
    Product(batch * query * kv, heads);
    batch * query * kv * heads * headDim * 2.0 + batch * query * kv * heads * 2.0
  }

  function AttentionBytes(batch: real, query: real, kv: real, heads: real, kvHeads: real, headDim: real): (r: real)
    requires batch >= 0.0 && query >= 0.0 && kv >= 0.0 && heads >= 0.0 && kvHeads >= 0.0 && headDim >= 0.0
    ensures r >= 0.0
    ensures batch > 0.0 && query > 0.0 && heads > 0.0 && headDim > 0.0 ==> r > 0.0
  {
    Product(batch, query);
    Product(batch * query, heads);
    Product(batch * query * heads, headDim);
    Product3(batch, kv, kvHeads);
    Product(batch * kv * kvHeads, headDim);
    var q := batch * query * heads * headDim * 2.0;
    var k := batch * kv * kvHeads * headDim * 2.0;
    q + k + k + q
  }

  function MlpFlops(h1: real, h2: real, batch: real, topk: real): (r: real)
    requires h1 >= 0.0 && h2 >= 0.0 && batch >= 0.0 && topk >= 0.0
    ensures r >= 0.0
  {
    Product3(batch, h1, h2);
    Product(batch * h1 * h2, topk);
    2.0 * batch * h1 * h2 * 3.0 * topk
  }

  function MlpBytes(h1: real, h2: real, batch: real, experts: real): (r: real)
    requires h1 >= 0.0 && h2 >= 0.0 && batch >= 0.0 && experts >= 0.0
    ensures r >= 0.0
  {
    Product(batch, h1);
    Product(batch, h2);
    Product3(h1, h2, experts);
    2.0 * batch * h1 + 2.0 * batch * h2 + 2.0 * h1 * h2 * 3.0 * experts
  }

  /** How long `work` takes at a given rate. */
  function Seconds(work: real, rate: real): (r: real)
    requires work >= 0.0 && rate > 0.0
    ensures r >= 0.0 && (work > 0.0 ==> r > 0.0)
  {
    Product(1.0 / rate, work);
    (1.0 / rate) * work
  }

  /** The coefficients of the linear program: bytes, and seconds of a layer. */
  datatype Costs = Costs(
    layers: real,        // number of layers
    expertBytes: real,   // all experts of a layer
    otherBytes: real,    // all other weights
    hiddenBytes: real,   // hidden states of a sequence in decode
    promptBytes: real,   // hidden states of a prompt
    kvBytes: real,       // keys and values of a sequence in all layers
    promptKvBytes: real, // keys and values of a prompt in one layer
    interBytes: real,    // intermediate buffers per sequence of a micro-batch
    loadTime: real,      // experts of a layer to the GPU
    mlpComp: real, mlpComm: real, mlpCommFixed: real, // GPU, per sequence and per micro-batch
    attnComp: real, attnComm: real,                   // CPU, per sequence
    gpuRoom: real, cpuRoom: real, tokens: real)

  /** What the search needs of the coefficients. */
  predicate Sane(k: Costs) {
    && k.layers >= 1.0 && k.expertBytes >= 0.0 && k.otherBytes >= 0.0 && k.hiddenBytes >= 1.0 && k.promptBytes >= 0.0
    && k.kvBytes >= 0.0 && k.promptKvBytes >= 0.0 && k.interBytes >= 0.0 && k.loadTime >= 0.0
    && k.mlpComp >= 0.0 && k.mlpComm >= 0.0 && k.mlpCommFixed >= 0.0 && k.attnComp >= 0.0 && k.attnComm > 0.0
    && k.tokens >= 2.0
  }

  function ExpertBytes(h1: real, h2: real, experts: real): (r: real)
    requires h1 >= 0.0 && h2 >= 0.0 && experts >= 0.0
    ensures r >= 0.0
  {
    Product3(h1, h2, experts);
    2.0 * 3.0 * h1 * h2 * experts
  }

  function OtherBytes(h1: nat, kvGroup: nat, layers: nat): (r: nat)
    requires kvGroup > 0
  {
    (4 * (h1 * h1) + 4 * (h1 * h1) / kvGroup) * layers
  }

  function HiddenBytes(h1: real, tp: real): (r: real)
    requires h1 >= 1.0 && tp >= 1.0
    ensures r >= 1.0
  {
    Product(h1, tp);
    2.0 * 2.0 * h1 * tp
  }

  function PromptBytes(h1: real, s: real, tp: real): (r: real)
    requires h1 >= 0.0 && s >= 0.0 && tp >= 0.0
    ensures r >= 0.0
  {
    Product3(h1, s, tp);
    2.0 * h1 * s * tp
  }

  function KvBytes(tokens: real, hKv: real, layers: real): (r: real)
    requires tokens >= 0.0 && hKv >= 0.0 && layers >= 0.0
    ensures r >= 0.0
  {
    Product3(tokens, hKv, layers);
    4.0 * tokens * hKv * layers
  }

  function InterBytes(topk: real, h1: real, tp: real, s: real, h2: real): (r: real)
    requires topk >= 0.0 && h1 >= 0.0 && tp >= 0.0 && s >= 0.0 && h2 >= 0.0
    ensures r >= 0.0
  {
    Product3(topk, h1, tp);
    Product(topk * h1 * tp, s);
    Product3(topk, h2, s);
    2.0 * (topk * h1 * tp * s + topk * 3.0 * h2 * s) * 1.2
  }

  function CostsOf(c: Config): (k: Costs)
    requires Sensible(c)
    ensures Sane(k)
  {
    var s, n, l, h1, h2, tp, topk, ne := c.s as real, c.n as real, c.l as real, c.h1 as real, c.h2 as real,
                                         c.tpSize as real, c.topk as real, c.nExperts as real;
    var nh, nkvh := c.nh as real, c.nkvh as real;
    assert c.nh / c.nkvh >= 1;
    var kvGroup := c.nh / c.nkvh;
    var hKv := (c.h1 / kvGroup) as real;
    Costs(l, ExpertBytes(h1, h2, ne), OtherBytes(c.h1, kvGroup, c.l) as real,
          HiddenBytes(h1, tp), PromptBytes(h1, s, tp), KvBytes(s + n, hKv, l), KvBytes(s, hKv, 1.0),
          InterBytes(topk, h1, tp, s, h2), Seconds(ExpertBytes(h1, h2, ne), c.ctogBdw),
          Seconds(MlpFlops(h1, h2, 1.0, topk), c.gpuFlops),
          Seconds(MlpBytes(h1, h2, 1.0, 0.0), c.gBdw), Seconds(MlpBytes(h1, h2, 0.0, ne), c.gBdw),
          Seconds(AttentionFlops(1.0, 1.0, s + n, nh, h1 / nh), c.cpuFlops),
          Seconds(AttentionBytes(1.0, 1.0, s + n, nh, nkvh, h1 / nh), c.cBdw),
          c.gmem * 0.86, c.cmem * 0.8, n)
  }

  // The coefficients times the size of a micro-batch are the cost functions of that micro-batch.

  lemma MlpFlopsOfBatch(c: Config, g: real)
    requires Sensible(c) && g >= 0.0
    ensures Mul(CostsOf(c).mlpComp, g) == Seconds(MlpFlops(c.h1 as real, c.h2 as real, g, c.topk as real), c.gpuFlops)
  {
    var h1, h2, topk := c.h1 as real, c.h2 as real, c.topk as real;
    MlpFlopsLinear(h1, h2, g, topk);
    PerSequence(MlpFlops(h1, h2, 1.0, topk), 0.0, MlpFlops(h1, h2, g, topk), g, c.gpuFlops, CostsOf(c).mlpComp);
  }

  lemma MlpBytesOfBatch(c: Config, g: real)
    requires Sensible(c) && g >= 0.0
    ensures Mul(CostsOf(c).mlpComm, g) + CostsOf(c).mlpCommFixed
         == Seconds(MlpBytes(c.h1 as real, c.h2 as real, g, c.nExperts as real), c.gBdw)
  {
    var h1, h2, ne := c.h1 as real, c.h2 as real, c.nExperts as real;
    MlpBytesLinear(h1, h2, g, ne);
    PerSequence(MlpBytes(h1, h2, 1.0, 0.0), MlpBytes(h1, h2, 0.0, ne), MlpBytes(h1, h2, g, ne), g, c.gBdw,
      CostsOf(c).mlpComm);
  }

  lemma AttentionFlopsOfBatch(c: Config, g: real)
    requires Sensible(c) && g >= 0.0
    ensures Mul(CostsOf(c).attnComp, g)
         == Seconds(AttentionFlops(g, 1.0, c.s as real + c.n as real, c.nh as real, c.h1 as real / c.nh as real),
           c.cpuFlops)
  {
    var kv, nh, d := c.s as real + c.n as real, c.nh as real, c.h1 as real / c.nh as real;
    AttentionFlopsLinear(g, kv, nh, d);
    PerSequence(AttentionFlops(1.0, 1.0, kv, nh, d), 0.0, AttentionFlops(g, 1.0, kv, nh, d), g, c.cpuFlops,
      CostsOf(c).attnComp);
  }

  lemma AttentionBytesOfBatch(c: Config, g: real)
    requires Sensible(c) && g >= 0.0
    ensures Mul(CostsOf(c).attnComm, g)
         == Seconds(AttentionBytes(g, 1.0, c.s as real + c.n as real, c.nh as real, c.nkvh as real,
           c.h1 as real / c.nh as real), c.cBdw)
  {
    var kv, nh, nkvh, d := c.s as real + c.n as real, c.nh as real, c.nkvh as real, c.h1 as real / c.nh as real;
    AttentionBytesLinear(g, kv, nh, nkvh, d);
    PerSequence(AttentionBytes(1.0, 1.0, kv, nh, nkvh, d), 0.0, AttentionBytes(g, 1.0, kv, nh, nkvh, d), g, c.cBdw,
      CostsOf(c).attnComm);
  }

  lemma MlpFlopsLinear(h1: real, h2: real, g: real, topk: real)
    requires h1 >= 0.0 && h2 >= 0.0 && g >= 0.0 && topk >= 0.0
    ensures MlpFlops(h1, h2, g, topk) == MlpFlops(h1, h2, 1.0, topk) * g + 0.0
  {
    assert MlpFlops(h1, h2, 1.0, topk) == 6.0 * h1 * h2 * topk;
    assert MlpFlops(h1, h2, g, topk) == 6.0 * h1 * h2 * topk * g;
  }

  lemma MlpBytesLinear(h1: real, h2: real, g: real, ne: real)
    requires h1 >= 0.0 && h2 >= 0.0 && g >= 0.0 && ne >= 0.0
    ensures MlpBytes(h1, h2, g, ne) == MlpBytes(h1, h2, 1.0, 0.0) * g + MlpBytes(h1, h2, 0.0, ne)
  {
    assert MlpBytes(h1, h2, 1.0, 0.0) == 2.0 * h1 + 2.0 * h2;
    assert MlpBytes(h1, h2, 0.0, ne) == 6.0 * h1 * h2 * ne;
  }

  lemma AttentionFlopsLinear(g: real, kv: real, nh: real, d: real)
    requires g >= 0.0 && kv >= 0.0 && nh >= 0.0 && d >= 0.0
    ensures AttentionFlops(g, 1.0, kv, nh, d) == AttentionFlops(1.0, 1.0, kv, nh, d) * g + 0.0
  {
    assert AttentionFlops(1.0, 1.0, kv, nh, d) == kv * nh * d * 2.0 + kv * nh * 2.0;
    assert AttentionFlops(g, 1.0, kv, nh, d) == g * kv * nh * d * 2.0 + g * kv * nh * 2.0;
  }

  lemma AttentionBytesLinear(g: real, kv: real, nh: real, nkvh: real, d: real)
    requires g >= 0.0 && kv >= 0.0 && nh >= 0.0 && nkvh >= 0.0 && d >= 0.0
    ensures AttentionBytes(g, 1.0, kv, nh, nkvh, d) == AttentionBytes(1.0, 1.0, kv, nh, nkvh, d) * g + 0.0
  {
    assert AttentionBytes(1.0, 1.0, kv, nh, nkvh, d) == nh * d * 4.0 + kv * nkvh * d * 4.0;
    assert AttentionBytes(g, 1.0, kv, nh, nkvh, d) == g * nh * d * 4.0 + g * kv * nkvh * d * 4.0;
  }

  lemma PerSequence(each: real, fixed: real, all: real, g: real, rate: real, coefficient: real)
    requires each >= 0.0 && fixed >= 0.0 && all >= 0.0 && rate > 0.0 && all == each * g + fixed
             && coefficient == Seconds(each, rate)
    ensures Mul(coefficient, g) + Seconds(fixed, rate) == Seconds(all, rate)
  {
  }

  // ------------------------------------------------------------------------------ the linear program

  function Max(a: real, b: real): real {
    if a >= b then a else b
  }

  datatype Durations = Durations(ctog: real, cpuT: real, cpuComp: real, cpuComm: real,
                         gpuT: real, gpuTAttn: real, gpuCompAttn: real, gpuCommAttn: real,
                         gpuTMlp: real, gpuCompMlp: real, gpuCommMlp: real)

  datatype Memory = Memory(gpuHome: real, gpuHomeP: real, gpuHomeD: real, gpuW: real, inter: real, cpuHome: real,
    cpuW: real)

  /** The variables: shares of weights and caches on either side, the time of a layer, and what these follow from. */
  datatype Lp = Lp(wg: real, wc: real, cg: real, cc: real, T: real, times: Durations, memory: Memory)

  predicate DurationsNonNegative(x: Durations) {
    && x.ctog >= 0.0 && x.cpuT >= 0.0 && x.cpuComp >= 0.0 && x.cpuComm >= 0.0
    && x.gpuT >= 0.0 && x.gpuTAttn >= 0.0 && x.gpuCompAttn >= 0.0 && x.gpuCommAttn >= 0.0
    && x.gpuTMlp >= 0.0 && x.gpuCompMlp >= 0.0 && x.gpuCommMlp >= 0.0
  }

  predicate MemoryNonNegative(x: Memory) {
    && x.gpuHome >= 0.0 && x.gpuHomeP >= 0.0 && x.gpuHomeD >= 0.0 && x.gpuW >= 0.0 && x.inter >= 0.0
    && x.cpuHome >= 0.0 && x.cpuW >= 0.0
  }

  /** How long each resource is busy with `m` micro-batches of `g` in a layer. */
  datatype Work = Work(ctog: real, mlpComp: real, mlpComm: real, attnComp: real, attnComm: real)

  function Compute(r: Rates, m: real): (w: Work)
    requires NoNegativeRate(r) && m >= 0.0
    ensures w.ctog == 0.0 && w.mlpComp >= 0.0 && w.mlpComm >= 0.0 && w.attnComp >= 0.0 && w.attnComm >= 0.0
    ensures r.attnComm > 0.0 && m > 0.0 ==> w.attnComm > 0.0
  {
    MulSign(r.mlpComp, m);
    MulSign(r.mlpComm, m);
    MulSign(r.attnComp, m);
    MulSign(r.attnComm, m);
    Work(0.0, Mul(r.mlpComp, m), Mul(r.mlpComm, m), Mul(r.attnComp, m), Mul(r.attnComm, m))
  }

  /** Seconds per micro-batch. */
  datatype Rates = Rates(mlpComp: real, mlpComm: real, attnComp: real, attnComm: real)

  predicate NoNegativeRate(r: Rates) {
    r.mlpComp >= 0.0 && r.mlpComm >= 0.0 && r.attnComp >= 0.0 && r.attnComm >= 0.0
  }

  function RatesOf(k: Costs, g: real): (r: Rates)
    requires Sane(k) && g >= 0.0
    ensures NoNegativeRate(r) && (g > 0.0 ==> r.attnComm > 0.0)
  {
    Product(k.mlpComp, g);
    Product(k.mlpComm, g);
    Product(k.attnComp, g);
    Product(k.attnComm, g);
    Rates(k.mlpComp * g, k.mlpComm * g + k.mlpCommFixed, k.attnComp * g, k.attnComm * g)
  }

  lemma MulSign(a: real, x: real)
    requires a >= 0.0 && x >= 0.0
    ensures Mul(a, x) >= 0.0 && (a > 0.0 && x > 0.0 ==> Mul(a, x) > 0.0)
  {
    Product(a, x);
  }

  /** Seconds to bring a share of the experts of a layer to the GPU. */
  function Transfer(k: Costs, wc: real): (r: real)
    requires Sane(k) && wc >= 0.0
    ensures r >= 0.0
  {
    MulSign(k.loadTime, wc);
    Mul(k.loadTime, wc)
  }

  function WorkOf(k: Costs, g: real, m: real, wc: real): (w: Work)
    requires Sane(k) && g >= 0.0 && m >= 0.0 && wc >= 0.0
    ensures w.ctog >= 0.0 && w.mlpComp >= 0.0 && w.mlpComm >= 0.0 && w.attnComp >= 0.0 && w.attnComm >= 0.0
  {
    Compute(RatesOf(k, g), m).(ctog := Transfer(k, wc))
  }

  /** A layer takes as long as the slowest of weight transfer, CPU attention and GPU work. */
  predicate TimeConstraints(w: Work, T: real, x: Durations) {
    && T >= x.ctog && T >= x.cpuT && T >= x.gpuT
    && x.ctog == w.ctog
    && x.gpuT == x.gpuTAttn + x.gpuTMlp
    && x.gpuTMlp >= x.gpuCompMlp && x.gpuTMlp >= x.gpuCommMlp
    && x.gpuCompMlp == w.mlpComp && x.gpuCommMlp == w.mlpComm
    && x.gpuTAttn >= x.gpuCompAttn && x.gpuTAttn >= x.gpuCommAttn && x.gpuCompAttn == 0.0 && x.gpuCommAttn == 0.0
    && x.cpuT >= x.cpuComp && x.cpuT >= x.cpuComm
    && x.cpuComp == w.attnComp && x.cpuComm == w.attnComm
  }

  // Memory: resident experts, the double buffer, caches and hidden states of `b` sequences.

  /** All other weights, and a share of the experts of all layers. */
  function ResidentBytes(k: Costs, wg: real): (r: real)
    requires Sane(k) && wg >= 0.0
    ensures r >= 0.0
  {
    Product3(k.expertBytes, k.layers, wg);
    k.otherBytes + k.expertBytes * k.layers * wg
  }

  /** Hidden states of the prompts; of the current micro-batch both inputs and outputs. */
  function PromptHidden(k: Costs, g: real, b: real): (r: real)
    requires Sane(k) && g >= 0.0 && b >= 0.0
    ensures r >= 0.0
  {
    Product(k.promptBytes, g);
    Product(k.promptBytes, b);
    2.0 * k.promptBytes * g + k.promptBytes * b
  }

  function HomeD(k: Costs, b: real, wg: real): (r: real)
    requires Sane(k) && b >= 0.0 && wg >= 0.0
    ensures r >= k.hiddenBytes * b >= b
  {
    Product(k.hiddenBytes - 1.0, b);
    ResidentBytes(k, wg) + k.hiddenBytes * b
  }

  function HomeP(k: Costs, g: real, b: real, wg: real): (r: real)
    requires Sane(k) && g >= 0.0 && b >= 0.0 && wg >= 0.0
    ensures r >= 0.0
  {
    ResidentBytes(k, wg) + PromptHidden(k, g, b)
  }

  /** Keys and values on the CPU, and the two lines of the buffer for them on the GPU. */
  function CpuKv(k: Costs, b: real): (r: real)
    requires Sane(k) && b >= 0.0
    ensures r >= 0.0
  {
    Product(k.kvBytes, b);
    k.kvBytes * b
  }

  function KvBuffer(k: Costs, g: real): (r: real)
    requires Sane(k) && g >= 0.0
    ensures r >= 0.0
  {
    Product(k.promptKvBytes, g);
    k.promptKvBytes * g * 2.0
  }

  function Inter(k: Costs, g: real): (r: real)
    requires Sane(k) && g >= 0.0
    ensures r >= 0.0
  {
    Product(k.interBytes, g);
    k.interBytes * g
  }

  /** Two pages for the experts that are not resident; also the size of the pinned memory. */
  function Pages(k: Costs, wg: real): (r: real)
    requires Sane(k) && wg <= 1.0
    ensures r >= 0.0
  {
    Product(k.expertBytes, 1.0 - wg);
    2.0 * k.expertBytes * (1.0 - wg)
  }

  function CpuHome(k: Costs, b: real, wc: real): (r: real)
    requires Sane(k) && b >= 0.0 && wc >= 0.0
    ensures r >= 0.0
  {
    Product3(k.expertBytes, k.layers, wc);
    Product(k.promptBytes, b);
    k.expertBytes * k.layers * wc + k.promptBytes * b
  }

  predicate MemoryConstraints(k: Costs, g: real, b: real, wg: real, wc: real, cg: real, cc: real, x: Memory)
    requires Sane(k) && g >= 0.0 && b >= 0.0 && 0.0 <= wg <= 1.0 && wc >= 0.0 && cg >= 0.0 && cc >= 0.0
  {
    && x.gpuHome >= x.gpuHomeP && x.gpuHome >= x.gpuHomeD
    && x.gpuHomeD == HomeD(k, b, wg) + CpuKv(k, b) * cg
    && x.gpuHomeP == HomeP(k, g, b, wg) + (k.promptKvBytes * b) * cg + KvBuffer(k, g) * cc
    && x.inter == Inter(k, g) && x.gpuW == Pages(k, wg) + x.inter
    && x.gpuHome + x.gpuW <= k.gpuRoom
    && x.cpuHome == CpuHome(k, b, wc) + CpuKv(k, b) * cc && x.cpuW == Pages(k, wg)
    && x.cpuHome + x.cpuW <= k.cpuRoom
  }

  predicate Feasible(k: Costs, g: real, b: real, m: real, x: Lp)
    requires Sane(k) && g >= 0.0 && b >= 0.0 && m >= 0.0
  {
    && x.wg >= 0.0 && x.wc >= 0.0 && x.cg >= 0.0 && x.cc >= 0.0 && x.T >= 0.0
    && DurationsNonNegative(x.times) && MemoryNonNegative(x.memory)
    && x.wg + x.wc == 1.0 && x.cg == 0.0 && x.cc == 1.0
    && TimeConstraints(WorkOf(k, g, m, x.wc), x.T, x.times)
    && MemoryConstraints(k, g, b, x.wg, x.wc, x.cg, x.cc, x.memory)
  }

  lemma {:induction false} RealProduct(a: nat, b: nat)
    ensures (a * b) as real == a as real * b as real
  {
    if a > 0 {
      RealProduct(a - 1, b);
      assert a * b == (a - 1) * b + b;
      assert (a as real - 1.0) * b as real == a as real * b as real - b as real;
    }
  }

  /** The number of sequences in `nb` micro-batches of `gbs`. */
  function Sequences(gbs: nat, nb: nat): (b: real)
    ensures b >= 0.0
  {
    RealProduct(gbs, nb);
    Product(gbs as real, nb as real);
    (gbs * nb) as real
  }

  /** `x` solves the program for a batch of `nb` micro-batches of `gbs` sequences. */
  predicate Constraints(k: Costs, gbs: nat, nb: nat, x: Lp)
    requires Sane(k)
  {
    Feasible(k, gbs as real, Sequences(gbs, nb), nb as real, x)
  }

  // ------------------------------------------------------------------- its shape in the share of the GPU

  function Slowest(w: Work): real {
    Max(w.ctog, Max(Max(w.mlpComp, w.mlpComm), Max(w.attnComp, w.attnComm)))
  }

  function Time(k: Costs, g: real, m: real, wg: real): real
    requires Sane(k) && g >= 0.0 && m >= 0.0 && wg <= 1.0
  {
    Slowest(WorkOf(k, g, m, 1.0 - wg))
  }

  function PeakD(k: Costs, g: real, b: real, wg: real): (r: real)
    requires Sane(k) && g >= 0.0 && b >= 0.0 && 0.0 <= wg <= 1.0
    ensures r >= b
  {
    HomeD(k, b, wg) + Pages(k, wg) + Inter(k, g)
  }

  function PeakP(k: Costs, g: real, b: real, wg: real): real
    requires Sane(k) && g >= 0.0 && b >= 0.0 && 0.0 <= wg <= 1.0
  {
    HomeP(k, g, b, wg) + KvBuffer(k, g) + Pages(k, wg) + Inter(k, g)
  }

  function PeakC(k: Costs, b: real, wg: real): real
    requires Sane(k) && b >= 0.0 && 0.0 <= wg <= 1.0
  {
    CpuHome(k, b, 1.0 - wg) + CpuKv(k, b) + Pages(k, wg)
  }

  /** A share of the experts that fits: everything about a solution that is not determined by the rest. */
  predicate Fits(k: Costs, g: real, b: real, wg: real)
    requires Sane(k) && g >= 0.0 && b >= 0.0
  {
    && 0.0 <= wg <= 1.0
    && PeakD(k, g, b, wg) <= k.gpuRoom && PeakP(k, g, b, wg) <= k.gpuRoom && PeakC(k, b, wg) <= k.cpuRoom
  }

  /** The times of the solution that takes no longer than it must. */
  function DurationsOf(w: Work): (x: Durations)
    requires w.ctog >= 0.0 && w.mlpComp >= 0.0 && w.mlpComm >= 0.0 && w.attnComp >= 0.0 && w.attnComm >= 0.0
    ensures DurationsNonNegative(x) && TimeConstraints(w, Slowest(w), x)
  {
    var gpuMlp, cpu := Max(w.mlpComp, w.mlpComm), Max(w.attnComp, w.attnComm);
    Durations(w.ctog, cpu, w.attnComp, w.attnComm, gpuMlp, 0.0, 0.0, 0.0, gpuMlp, w.mlpComp, w.mlpComm)
  }

  function MemoryOf(k: Costs, g: real, b: real, wg: real): (x: Memory)
    requires Sane(k) && g >= 0.0 && b >= 0.0 && Fits(k, g, b, wg)
    ensures MemoryNonNegative(x) && MemoryConstraints(k, g, b, wg, 1.0 - wg, 0.0, 1.0, x)
  {
    var homeD, homeP := HomeD(k, b, wg), HomeP(k, g, b, wg) + KvBuffer(k, g);
    Memory(Max(homeP, homeD), homeP, homeD, Pages(k, wg) + Inter(k, g), Inter(k, g),
           CpuHome(k, b, 1.0 - wg) + CpuKv(k, b), Pages(k, wg))
  }

  function Solution(k: Costs, g: real, b: real, m: real, wg: real): (x: Lp)
    requires Sane(k) && g >= 0.0 && b >= 0.0 && m >= 0.0 && Fits(k, g, b, wg)
    ensures Feasible(k, g, b, m, x) && x.wg == wg && x.T == Time(k, g, m, wg)
  {
    Lp(wg, 1.0 - wg, 0.0, 1.0, Time(k, g, m, wg), DurationsOf(WorkOf(k, g, m, 1.0 - wg)), MemoryOf(k, g, b, wg))
  }

  /** Every solution is a share that fits, and takes at least the time that share needs. */
  lemma SolutionIsShare(k: Costs, g: real, b: real, m: real, x: Lp)
    requires Sane(k) && g >= 0.0 && b >= 0.0 && m >= 0.0 && Feasible(k, g, b, m, x)
    ensures Fits(k, g, b, x.wg) && x.T >= Time(k, g, m, x.wg)
  {
    assert x.wc == 1.0 - x.wg;
  }

  // --------------------------------------------------------------------- smaller batches fit better

  lemma Grows(a: real, x: real, y: real)
    requires a >= 0.0 && x <= y
    ensures a * x <= a * y
  {
    Product(a, y - x);
  }

  lemma SmallerPeakD(k: Costs, g: real, b: real, g1: real, b1: real, wg: real)
    requires Sane(k) && 0.0 <= g1 <= g && 0.0 <= b1 <= b && 0.0 <= wg <= 1.0
    ensures PeakD(k, g1, b1, wg) <= PeakD(k, g, b, wg)
  {
    Grows(k.hiddenBytes, b1, b);
    assert HomeD(k, b1, wg) <= HomeD(k, b, wg);
    Grows(k.interBytes, g1, g);
    assert Inter(k, g1) <= Inter(k, g);
  }

  lemma SmallerPromptHidden(k: Costs, g: real, b: real, g1: real, b1: real)
    requires Sane(k) && 0.0 <= g1 <= g && 0.0 <= b1 <= b
    ensures PromptHidden(k, g1, b1) <= PromptHidden(k, g, b)
  {
    Grows(k.promptBytes, b1, b);
    Grows(k.promptBytes, g1, g);
  }

  lemma SmallerPeakP(k: Costs, g: real, b: real, g1: real, b1: real, wg: real)
    requires Sane(k) && 0.0 <= g1 <= g && 0.0 <= b1 <= b && 0.0 <= wg <= 1.0
    ensures PeakP(k, g1, b1, wg) <= PeakP(k, g, b, wg)
  {
    SmallerPromptHidden(k, g, b, g1, b1);
    Grows(k.promptKvBytes, g1, g);
    assert KvBuffer(k, g1) <= KvBuffer(k, g);
    Grows(k.interBytes, g1, g);
    assert Inter(k, g1) <= Inter(k, g);
  }

  lemma SmallerPeakC(k: Costs, b: real, b1: real, wg: real)
    requires Sane(k) && 0.0 <= b1 <= b && 0.0 <= wg <= 1.0
    ensures PeakC(k, b1, wg) <= PeakC(k, b, wg)
  {
    Grows(k.promptBytes, b1, b);
    assert CpuHome(k, b1, 1.0 - wg) <= CpuHome(k, b, 1.0 - wg);
    Grows(k.kvBytes, b1, b);
    assert CpuKv(k, b1) <= CpuKv(k, b);
  }

  lemma SmallerFits(k: Costs, g: real, b: real, g1: real, b1: real, wg: real)
    requires Sane(k) && 0.0 <= g1 <= g && 0.0 <= b1 <= b && Fits(k, g, b, wg)
    ensures Fits(k, g1, b1, wg)
  {
    SmallerPeakD(k, g, b, g1, b1, wg);
    SmallerPeakP(k, g, b, g1, b1, wg);
    SmallerPeakC(k, b, b1, wg);
  }

  // ---------------------------------------------------------------------- the best share of the GPU

  /** Residents for all layers against two pages. */
  function Slope(k: Costs): real {
    k.expertBytes * (k.layers - 2.0)
  }

  /** A point on a line. */
  function At(base: real, slope: real, x: real): real {
    base + slope * x
  }

  lemma AtMoves(base: real, slope: real, x: real, y: real)
    requires x <= y
    ensures slope >= 0.0 ==> At(base, slope, x) <= At(base, slope, y)
    ensures slope <= 0.0 ==> At(base, slope, x) >= At(base, slope, y)
    ensures slope > 0.0 && x < y ==> At(base, slope, x) < At(base, slope, y)
  {
    AtDifference(base, slope, x, y);
    if slope >= 0.0 {
      MulSign(slope, y - x);
    } else {
      MulSign(-slope, y - x);
    }
  }

  lemma AtDifference(base: real, slope: real, x: real, y: real)
    ensures At(base, slope, y) == At(base, slope, x) + Mul(slope, y - x)
    ensures At(base, slope, x) == At(base, slope, y) + Mul(-slope, y - x)
  {
  }

  lemma LineD(k: Costs, g: real, b: real, wg: real)
    requires Sane(k) && g >= 0.0 && b >= 0.0 && 0.0 <= wg <= 1.0
    ensures PeakD(k, g, b, wg) == At(PeakD(k, g, b, 0.0), Slope(k), wg)
  {
  }

  lemma LineP(k: Costs, g: real, b: real, wg: real)
    requires Sane(k) && g >= 0.0 && b >= 0.0 && 0.0 <= wg <= 1.0
    ensures PeakP(k, g, b, wg) == At(PeakP(k, g, b, 0.0), Slope(k), wg)
  {
  }

  lemma LineC(k: Costs, b: real, wg: real)
    requires Sane(k) && b >= 0.0 && 0.0 <= wg <= 1.0
    ensures PeakC(k, b, wg) == At(PeakC(k, b, 0.0), Fall(k), wg)
  {
  }

  function Fall(k: Costs): (r: real)
    requires Sane(k)
    ensures r <= 0.0
  {
    Product(k.expertBytes, k.layers + 2.0);
    -(k.expertBytes * (k.layers + 2.0))
  }

  /** For a given batch, three lines bound the share. */
  datatype Bounds = Bounds(d: real, p: real, c: real, slope: real, fall: real, gpuRoom: real, cpuRoom: real)

  predicate Within(y: Bounds, wg: real) {
    && 0.0 <= wg <= 1.0 && At(y.d, y.slope, wg) <= y.gpuRoom && At(y.p, y.slope, wg) <= y.gpuRoom
      && At(y.c, y.fall, wg) <= y.cpuRoom
  }

  /** The largest share within the bounds, if there is any. */
  function BestWithin(y: Bounds): (r: Option<real>)
    ensures r.Some? ==> Within(y, r.value)
  {
    if Within(y, 1.0) then Some(1.0)
    else if y.slope > 0.0 then
      var wg := (y.gpuRoom - Max(y.d, y.p)) / y.slope;
      if Within(y, wg) then Some(wg) else None
    else None
  }

  lemma BestWithinIsBest(y: Bounds, wg: real)
    requires y.fall <= 0.0 && Within(y, wg)
    ensures BestWithin(y).Some? && wg <= BestWithin(y).value
  {
    if !Within(y, 1.0) {
      AtMoves(y.c, y.fall, wg, 1.0);
      AtMoves(y.d, y.slope, wg, 1.0);
      AtMoves(y.p, y.slope, wg, 1.0);
      var best := (y.gpuRoom - Max(y.d, y.p)) / y.slope;
      TopOfLine(y.slope, Max(y.d, y.p), y.gpuRoom, best);
      assert At(y.d, y.slope, best) <= y.gpuRoom && At(y.p, y.slope, best) <= y.gpuRoom;
      if best < wg {
        AtMoves(Max(y.d, y.p), y.slope, best, wg);
        assert false;
      }
      if best > 1.0 {
        AtMoves(y.d, y.slope, 1.0, best);
        AtMoves(y.p, y.slope, 1.0, best);
        assert false;
      }
      AtMoves(y.c, y.fall, wg, best);
    }
  }

  lemma TopOfLine(slope: real, base: real, room: real, x: real)
    requires slope > 0.0 && x == (room - base) / slope
    ensures At(base, slope, x) == room
  {
  }

  function BoundsOf(k: Costs, g: real, b: real): Bounds
    requires Sane(k) && g >= 0.0 && b >= 0.0
  {
    Bounds(PeakD(k, g, b, 0.0), PeakP(k, g, b, 0.0), PeakC(k, b, 0.0), Slope(k), Fall(k), k.gpuRoom, k.cpuRoom)
  }

  lemma FitsIsWithin(k: Costs, g: real, b: real, wg: real)
    requires Sane(k) && g >= 0.0 && b >= 0.0
    ensures Fits(k, g, b, wg) <==> Within(BoundsOf(k, g, b), wg)
  {
    if 0.0 <= wg <= 1.0 {
      LineD(k, g, b, wg);
      LineP(k, g, b, wg);
      LineC(k, b, wg);
    }
  }

  /** The largest share with which a batch fits, if any. */
  function BestShare(k: Costs, g: real, b: real): (r: Option<real>)
    requires Sane(k) && g >= 0.0 && b >= 0.0
    ensures r.Some? ==> Fits(k, g, b, r.value)
  {
    if BestWithin(BoundsOf(k, g, b)).Some? then
      FitsIsWithin(k, g, b, BestWithin(BoundsOf(k, g, b)).value);
      BestWithin(BoundsOf(k, g, b))
    else None
  }

  lemma LargerShareIsFaster(k: Costs, g: real, m: real, w1: real, w2: real)
    requires Sane(k) && g >= 0.0 && m >= 0.0 && w1 <= w2 <= 1.0
    ensures Time(k, g, m, w2) <= Time(k, g, m, w1)
  {
    Grows(k.loadTime, 1.0 - w2, 1.0 - w1);
    assert Transfer(k, 1.0 - w2) <= Transfer(k, 1.0 - w1);
  }

  /** The largest share gives the optimum, and there is no solution without it. */
  lemma BestShareIsOptimal(k: Costs, g: real, b: real, m: real, x: Lp)
    requires Sane(k) && g >= 0.0 && b >= 0.0 && m >= 0.0 && Feasible(k, g, b, m, x)
    ensures BestShare(k, g, b).Some? && Time(k, g, m, BestShare(k, g, b).value) <= x.T
  {
    SolutionIsShare(k, g, b, m, x);
    FitsIsWithin(k, g, b, x.wg);
    BestWithinIsBest(BoundsOf(k, g, b), x.wg);
    LargerShareIsFaster(k, g, m, x.wg, BestShare(k, g, b).value);
  }

  // ------------------------------------------------------------------ between two batch counts that fit

  /** A weighted mean. */
  function Mix(x: real, y: real, t: real): real {
    (1.0 - t) * x + t * y
  }

  lemma MixBelow(x: real, y: real, x1: real, y1: real, t: real)
    requires 0.0 <= t <= 1.0 && x <= x1 && y <= y1
    ensures Mix(x, y, t) <= Mix(x1, y1, t)
  {
    Product(1.0 - t, x1 - x);
    Product(t, y1 - y);
    assert Mix(x1, y1, t) - Mix(x, y, t) == (1.0 - t) * (x1 - x) + t * (y1 - y);
  }

  lemma MixSame(x: real, t: real)
    ensures Mix(x, x, t) == x
  {
  }

  lemma MixPlane(base: real, p: real, b1: real, b2: real, slope: real, w1: real, w2: real, t: real)
    ensures At(At(base, p, Mix(b1, b2, t)), slope, Mix(w1, w2, t))
            == Mix(At(At(base, p, b1), slope, w1), At(At(base, p, b2), slope, w2), t)
  {
  }

  lemma BatchLineD(k: Costs, g: real, b: real)
    requires Sane(k) && g >= 0.0 && b >= 0.0
    ensures PeakD(k, g, b, 0.0) == At(PeakD(k, g, 0.0, 0.0), k.hiddenBytes, b)
  {
  }

  lemma BatchLineP(k: Costs, g: real, b: real)
    requires Sane(k) && g >= 0.0 && b >= 0.0
    ensures PeakP(k, g, b, 0.0) == At(PeakP(k, g, 0.0, 0.0), k.promptBytes, b)
  {
  }

  lemma BatchLineC(k: Costs, b: real)
    requires Sane(k) && b >= 0.0
    ensures PeakC(k, b, 0.0) == At(PeakC(k, 0.0, 0.0), k.kvBytes + k.promptBytes, b)
  {
  }

  lemma PeaksInBatch(k: Costs, g: real, b: real)
    requires Sane(k) && g >= 0.0 && b >= 0.0
    ensures PeakD(k, g, b, 0.0) == At(PeakD(k, g, 0.0, 0.0), k.hiddenBytes, b)
    ensures PeakP(k, g, b, 0.0) == At(PeakP(k, g, 0.0, 0.0), k.promptBytes, b)
    ensures PeakC(k, b, 0.0) == At(PeakC(k, 0.0, 0.0), k.kvBytes + k.promptBytes, b)
  {
    BatchLineD(k, g, b);
    BatchLineP(k, g, b);
    BatchLineC(k, b);
  }

  lemma MixFits(k: Costs, g: real, b1: real, b2: real, w1: real, w2: real, t: real)
    requires Sane(k) && g >= 0.0 && b1 >= 0.0 && b2 >= 0.0 && 0.0 <= t <= 1.0 && Fits(k, g, b1, w1)
             && Fits(k, g, b2, w2)
    ensures Mix(b1, b2, t) >= 0.0 && Fits(k, g, Mix(b1, b2, t), Mix(w1, w2, t))
  {
    var b, w := Mix(b1, b2, t), Mix(w1, w2, t);
    MixSame(0.0, t);
    MixSame(1.0, t);
    MixBelow(0.0, 0.0, b1, b2, t);
    MixBelow(0.0, 0.0, w1, w2, t);
    MixBelow(w1, w2, 1.0, 1.0, t);
    FitsIsWithin(k, g, b1, w1);
    FitsIsWithin(k, g, b2, w2);
    FitsIsWithin(k, g, b, w);
    PeaksInBatch(k, g, b1);
    PeaksInBatch(k, g, b2);
    PeaksInBatch(k, g, b);
    MixedBound(PeakD(k, g, 0.0, 0.0), k.hiddenBytes, b1, b2, Slope(k), w1, w2, t, k.gpuRoom);
    MixedBound(PeakP(k, g, 0.0, 0.0), k.promptBytes, b1, b2, Slope(k), w1, w2, t, k.gpuRoom);
    MixedBound(PeakC(k, 0.0, 0.0), k.kvBytes + k.promptBytes, b1, b2, Fall(k), w1, w2, t, k.cpuRoom);
  }

  lemma MixedBound(base: real, p: real, b1: real, b2: real, slope: real, w1: real, w2: real, t: real, room: real)
    requires 0.0 <= t <= 1.0 && At(At(base, p, b1), slope, w1) <= room && At(At(base, p, b2), slope, w2) <= room
    ensures At(At(base, p, Mix(b1, b2, t)), slope, Mix(w1, w2, t)) <= room
  {
    MixPlane(base, p, b1, b2, slope, w1, w2, t);
    MixBelow(At(At(base, p, b1), slope, w1), At(At(base, p, b2), slope, w2), room, room, t);
    MixSame(room, t);
  }

  lemma MaxOfMix(a: real, a1: real, a2: real, b: real, b1: real, b2: real, t: real)
    requires 0.0 <= t <= 1.0 && a <= Mix(a1, a2, t) && b <= Mix(b1, b2, t)
    ensures Max(a, b) <= Mix(Max(a1, b1), Max(a2, b2), t)
  {
    MixBelow(a1, a2, Max(a1, b1), Max(a2, b2), t);
    MixBelow(b1, b2, Max(a1, b1), Max(a2, b2), t);
  }

  lemma MixProduct(a: real, x: real, y: real, t: real)
    ensures Mul(a, Mix(x, y, t)) == Mix(Mul(a, x), Mul(a, y), t)
  {
  }

  lemma MulMix(a: real, m1: real, m2: real, t: real, r: real, r1: real, r2: real)
    requires r == Mul(a, Mix(m1, m2, t)) && r1 == Mul(a, m1) && r2 == Mul(a, m2)
    ensures r == Mix(r1, r2, t)
  {
    MixProduct(a, m1, m2, t);
  }

  lemma ComputeMix(r: Rates, m1: real, m2: real, t: real, w: Work, v1: Work, v2: Work)
    requires NoNegativeRate(r) && m1 >= 0.0 && m2 >= 0.0 && 0.0 <= t <= 1.0 && Mix(m1, m2, t) >= 0.0
    requires w == Compute(r, Mix(m1, m2, t)) && v1 == Compute(r, m1) && v2 == Compute(r, m2)
    ensures w.mlpComp == Mix(v1.mlpComp, v2.mlpComp, t) && w.mlpComm == Mix(v1.mlpComm, v2.mlpComm, t)
    ensures w.attnComp == Mix(v1.attnComp, v2.attnComp, t) && w.attnComm == Mix(v1.attnComm, v2.attnComm, t)
  {
    MulMix(r.mlpComp, m1, m2, t, w.mlpComp, v1.mlpComp, v2.mlpComp);
    MulMix(r.mlpComm, m1, m2, t, w.mlpComm, v1.mlpComm, v2.mlpComm);
    MulMix(r.attnComp, m1, m2, t, w.attnComp, v1.attnComp, v2.attnComp);
    MulMix(r.attnComm, m1, m2, t, w.attnComm, v1.attnComm, v2.attnComm);
  }

  lemma TransferMix(k: Costs, w1: real, w2: real, t: real)
    requires Sane(k) && w1 <= 1.0 && w2 <= 1.0 && 0.0 <= t <= 1.0 && Mix(w1, w2, t) <= 1.0
    ensures Transfer(k, 1.0 - Mix(w1, w2, t)) == Mix(Transfer(k, 1.0 - w1), Transfer(k, 1.0 - w2), t)
  {
    assert 1.0 - Mix(w1, w2, t) == Mix(1.0 - w1, 1.0 - w2, t);
    MixProduct(k.loadTime, 1.0 - w1, 1.0 - w2, t);
  }

  /** The time needed is convex in the number of micro-batches and the share together. */
  lemma MixTime(k: Costs, g: real, m1: real, m2: real, w1: real, w2: real, t: real)
    requires Sane(k) && g >= 0.0 && m1 >= 0.0 && m2 >= 0.0 && w1 <= 1.0 && w2 <= 1.0 && 0.0 <= t <= 1.0
    requires Mix(m1, m2, t) >= 0.0 && Mix(w1, w2, t) <= 1.0
    ensures Time(k, g, Mix(m1, m2, t), Mix(w1, w2, t)) <= Mix(Time(k, g, m1, w1), Time(k, g, m2, w2), t)
  {
    var r := RatesOf(k, g);
    ComputeMix(r, m1, m2, t, Compute(r, Mix(m1, m2, t)), Compute(r, m1), Compute(r, m2));
    TransferMix(k, w1, w2, t);
    SlowestOfMix(WorkOf(k, g, Mix(m1, m2, t), 1.0 - Mix(w1, w2, t)), WorkOf(k, g, m1, 1.0 - w1),
      WorkOf(k, g, m2, 1.0 - w2), t);
  }

  lemma SlowestOfMix(w: Work, v1: Work, v2: Work, t: real)
    requires 0.0 <= t <= 1.0 && w.ctog == Mix(v1.ctog, v2.ctog, t)
    requires w.mlpComp == Mix(v1.mlpComp, v2.mlpComp, t) && w.mlpComm == Mix(v1.mlpComm, v2.mlpComm, t)
    requires w.attnComp == Mix(v1.attnComp, v2.attnComp, t) && w.attnComm == Mix(v1.attnComm, v2.attnComm, t)
    ensures Slowest(w) <= Mix(Slowest(v1), Slowest(v2), t)
  {
    MaxOfMix(w.mlpComp, v1.mlpComp, v2.mlpComp, w.mlpComm, v1.mlpComm, v2.mlpComm, t);
    MaxOfMix(w.attnComp, v1.attnComp, v2.attnComp, w.attnComm, v1.attnComm, v2.attnComm, t);
    MaxOfMix(Max(w.mlpComp, w.mlpComm), Max(v1.mlpComp, v1.mlpComm), Max(v2.mlpComp, v2.mlpComm),
             Max(w.attnComp, w.attnComm), Max(v1.attnComp, v1.attnComm), Max(v2.attnComp, v2.attnComm), t);
    MaxOfMix(w.ctog, v1.ctog, v2.ctog, Max(Max(w.mlpComp, w.mlpComm), Max(w.attnComp, w.attnComm)),
             Max(Max(v1.mlpComp, v1.mlpComm), Max(v1.attnComp, v1.attnComm)),
             Max(Max(v2.mlpComp, v2.mlpComm), Max(v2.attnComp, v2.attnComm)), t);
  }

  // --------------------------------------------------------------------------------- batches of sequences

  /** Some solution exists for `nb` micro-batches of `gbs` sequences. */
  predicate Possible(k: Costs, gbs: nat, nb: nat)
    requires Sane(k)
  {
    BestShare(k, gbs as real, Sequences(gbs, nb)).Some?
  }

  /** The shortest time of a layer. */
  function BestTime(k: Costs, gbs: nat, nb: nat): real
    requires Sane(k) && Possible(k, gbs, nb)
  {
    Time(k, gbs as real, nb as real, BestShare(k, gbs as real, Sequences(gbs, nb)).value)
  }

  function ThroughputOf(k: Costs, gbs: nat, nb: nat, T: real): real
    requires Sane(k) && T > 0.0
  {
    Product(T, k.tokens - 1.0);
    Product(T * (k.tokens - 1.0), k.layers);
    Sequences(gbs, nb) * k.tokens / (T * (k.tokens - 1.0) * k.layers)
  }

  lemma BestTimeIsBest(k: Costs, gbs: nat, nb: nat, x: Lp)
    requires Sane(k) && gbs > 0 && Constraints(k, gbs, nb, x)
    ensures Possible(k, gbs, nb) && BestTime(k, gbs, nb) <= x.T
  {
    BestShareIsOptimal(k, gbs as real, Sequences(gbs, nb), nb as real, x);
  }

  function BestSolution(k: Costs, gbs: nat, nb: nat): (x: Lp)
    requires Sane(k) && gbs > 0 && Possible(k, gbs, nb)
    ensures Constraints(k, gbs, nb, x) && x.T == BestTime(k, gbs, nb)
  {
    Solution(k, gbs as real, Sequences(gbs, nb), nb as real, BestShare(k, gbs as real, Sequences(gbs, nb)).value)
  }

  lemma TimeIsPositive(k: Costs, gbs: nat, nb: nat)
    requires Sane(k) && gbs > 0 && nb > 0 && Possible(k, gbs, nb)
    ensures BestTime(k, gbs, nb) > 0.0
  {
    assert Compute(RatesOf(k, gbs as real), nb as real).attnComm > 0.0;
  }

  lemma FewerFit(k: Costs, g: real, b: real, g1: real, b1: real)
    requires Sane(k) && 0.0 <= g1 <= g && 0.0 <= b1 <= b && BestShare(k, g, b).Some?
    ensures BestShare(k, g1, b1).Some?
  {
    var wg := BestShare(k, g, b).value;
    SmallerFits(k, g, b, g1, b1, wg);
    FitsIsWithin(k, g1, b1, wg);
    BestWithinIsBest(BoundsOf(k, g1, b1), wg);
  }

  lemma FewerSequences(gbs: nat, nb: nat, gbs1: nat, nb1: nat)
    requires gbs1 <= gbs && nb1 <= nb
    ensures Sequences(gbs1, nb1) <= Sequences(gbs, nb)
  {
    RealProduct(gbs, nb);
    RealProduct(gbs1, nb1);
    ProductGrows(gbs1 as real, nb1 as real, gbs as real, nb as real);
  }

  lemma ProductGrows(a: real, b: real, a1: real, b1: real)
    requires 0.0 <= a <= a1 && 0.0 <= b <= b1
    ensures a * b <= a1 * b1
  {
    Grows(a, b, b1);
    Grows(b1, a, a1);
  }

  /** Fewer and smaller micro-batches fit whenever more and larger ones do. */
  lemma FewerArePossible(k: Costs, gbs: nat, nb: nat, gbs1: nat, nb1: nat)
    requires Sane(k) && Possible(k, gbs, nb) && gbs1 <= gbs && nb1 <= nb
    ensures Possible(k, gbs1, nb1)
  {
    FewerSequences(gbs, nb, gbs1, nb1);
    FewerFit(k, gbs as real, Sequences(gbs, nb), gbs1 as real, Sequences(gbs1, nb1));
  }

  /** Batches beyond the GPU memory never fit. */
  lemma TooMany(k: Costs, gbs: nat, nb: nat)
    requires Sane(k) && Possible(k, gbs, nb)
    ensures Sequences(gbs, nb) <= k.gpuRoom
  {
    var b := Sequences(gbs, nb);
    assert Fits(k, gbs as real, b, BestShare(k, gbs as real, b).value);
  }

  lemma BetweenShares(k: Costs, g: real, b1: real, b2: real, m1: real, m2: real, t: real)
    requires Sane(k) && g >= 0.0 && b1 >= 0.0 && b2 >= 0.0 && m1 >= 0.0 && m2 >= 0.0 && 0.0 <= t <= 1.0
    requires BestShare(k, g, b1).Some? && BestShare(k, g, b2).Some? && Mix(b1, b2, t) >= 0.0 && Mix(m1, m2, t) >= 0.0
    ensures BestShare(k, g, Mix(b1, b2, t)).Some?
    ensures Time(k, g, Mix(m1, m2, t), BestShare(k, g, Mix(b1, b2, t)).value)
         <= Mix(Time(k, g, m1, BestShare(k, g, b1).value), Time(k, g, m2, BestShare(k, g, b2).value), t)
  {
    var w1, w2 := BestShare(k, g, b1).value, BestShare(k, g, b2).value;
    var b, w := Mix(b1, b2, t), Mix(w1, w2, t);
    MixFits(k, g, b1, b2, w1, w2, t);
    FitsIsWithin(k, g, b, w);
    BestWithinIsBest(BoundsOf(k, g, b), w);
    LargerShareIsFaster(k, g, Mix(m1, m2, t), w, BestShare(k, g, b).value);
    MixTime(k, g, m1, m2, w1, w2, t);
  }

  lemma BetweenAt(k: Costs, gbs: nat, i: nat, j: nat, n: nat, t: real)
    requires Sane(k) && 0.0 <= t <= 1.0 && Mix(i as real, n as real, t) == j as real && Possible(k, gbs, i)
             && Possible(k, gbs, n)
    ensures Possible(k, gbs, j) && BestTime(k, gbs, j) <= Mix(BestTime(k, gbs, i), BestTime(k, gbs, n), t)
  {
    SequencesMix(gbs, i, j, n, t);
    BetweenShares(k, gbs as real, Sequences(gbs, i), Sequences(gbs, n), i as real, n as real, t);
  }

  /** The point at `j` is not above the line through the points at `i` and `n`. */
  predicate BelowLine(ti: real, tj: real, tn: real, i: nat, j: nat, n: nat) {
    tj * (n - i) as real <= ti * (n - j) as real + tn * (j - i) as real
  }

  /** Between two batch counts that fit, the best time lies on or below the line between them. */
  lemma BetweenBatches(k: Costs, gbs: nat, i: nat, j: nat, n: nat)
    requires Sane(k) && i <= j <= n && i < n && Possible(k, gbs, i) && Possible(k, gbs, n)
    ensures Possible(k, gbs, j)
    ensures BelowLine(BestTime(k, gbs, i), BestTime(k, gbs, j), BestTime(k, gbs, n), i, j, n)
  {
    var t := Position(i, j, n);
    BetweenAt(k, gbs, i, j, n, t);
    Weigh(BestTime(k, gbs, i), BestTime(k, gbs, j), BestTime(k, gbs, n), t, i, j, n);
  }

  lemma Position(i: nat, j: nat, n: nat) returns (t: real)
    requires i <= j <= n && i < n
    ensures 0.0 <= t <= 1.0 && t * (n - i) as real == (j - i) as real && Mix(i as real, n as real, t) == j as real
  {
    t := (j - i) as real / (n - i) as real;
    FractionOf((j - i) as real, (n - i) as real);
    MixAt(i as real, n as real, t);
  }

  lemma FractionOf(a: real, b: real)
    requires 0.0 <= a <= b && b > 0.0
    ensures 0.0 <= a / b <= 1.0 && (a / b) * b == a
  {
    QuotientTimes(a, b);
    Between0And1(a / b, b);
  }

  lemma Between0And1(t: real, b: real)
    requires b > 0.0 && 0.0 <= t * b <= b
    ensures 0.0 <= t <= 1.0
  {
    if t < 0.0 {
      Product(-t, b);
    } else if t > 1.0 {
      Product(t - 1.0, b);
    }
  }

  lemma QuotientTimes(a: real, b: real)
    requires b != 0.0
    ensures (a / b) * b == a
  {
  }

  lemma MixAt(x: real, y: real, t: real)
    ensures Mix(x, y, t) == x + t * (y - x)
  {
  }

  lemma SequencesMix(gbs: nat, i: nat, j: nat, n: nat, t: real)
    requires Mix(i as real, n as real, t) == j as real
    ensures Mix(Sequences(gbs, i), Sequences(gbs, n), t) == Sequences(gbs, j)
  {
    RealProduct(gbs, i);
    RealProduct(gbs, j);
    RealProduct(gbs, n);
    MixProduct(gbs as real, i as real, n as real, t);
  }

  lemma Weigh(ti: real, tj: real, tn: real, t: real, i: nat, j: nat, n: nat)
    requires i <= j <= n && i < n && t * (n - i) as real == (j - i) as real && tj <= Mix(ti, tn, t)
    ensures BelowLine(ti, tj, tn, i, j, n)
  {
    var d := (n - i) as real;
    Grows(d, tj, Mix(ti, tn, t));
    assert d * Mix(ti, tn, t) == ti * (d - t * d) + tn * (t * d);
  }

  // ------------------------------------------------------------------------------ throughput has one peak

  /** Throughputs compare like the numbers of batches per time. */
  lemma Faster(k: Costs, gbs: nat, n1: nat, t1: real, n2: nat, t2: real)
    requires Sane(k) && gbs > 0 && t1 > 0.0 && t2 > 0.0
    ensures ThroughputOf(k, gbs, n1, t1) <= ThroughputOf(k, gbs, n2, t2) <==> n1 as real * t2 <= n2 as real * t1
  {
    RealProduct(gbs, n1);
    RealProduct(gbs, n2);
    var g, c, d := gbs as real, k.tokens, (k.tokens - 1.0) * k.layers;
    Product(k.tokens - 1.0, k.layers);
    Product(g, c);
    CompareFractions(n1 as real, t1, n2 as real, t2, g * c, d);
  }

  /** The same across sizes: by sequences per time. */
  lemma FasterBatch(k: Costs, g1: nat, n1: nat, t1: real, g2: nat, n2: nat, t2: real)
    requires Sane(k) && t1 > 0.0 && t2 > 0.0
    ensures ThroughputOf(k, g1, n1, t1) <= ThroughputOf(k, g2, n2, t2)
            <==> (g1 * n1) as real * t2 <= (g2 * n2) as real * t1
  {
    var d := (k.tokens - 1.0) * k.layers;
    Product(k.tokens - 1.0, k.layers);
    CompareFractions(Sequences(g1, n1), t1, Sequences(g2, n2), t2, k.tokens, d);
  }

  /** Seconds of all decode steps over all layers, when one layer takes `T`. */
  function TotalTime(tokens: real, layers: real, T: real): real {
    T * (tokens - 1.0) * layers
  }

  function Tokens(gbs: nat, nb: nat, tokens: real): real {
    (gbs * nb) as real * tokens
  }

  /** Throughput times this time is the number of tokens. */
  lemma TokensOverTime(k: Costs, gbs: nat, nb: nat, T: real)
    requires Sane(k) && T > 0.0
    ensures TotalTime(k.tokens, k.layers, T) > 0.0
    ensures Mul(ThroughputOf(k, gbs, nb, T), TotalTime(k.tokens, k.layers, T)) == Tokens(gbs, nb, k.tokens)
  {
    Product(T, k.tokens - 1.0);
    Product(T * (k.tokens - 1.0), k.layers);
  }

  lemma CompareFractions(n1: real, t1: real, n2: real, t2: real, u: real, d: real)
    requires t1 > 0.0 && t2 > 0.0 && u > 0.0 && d > 0.0
    ensures t1 * d > 0.0 && t2 * d > 0.0
    ensures n1 * u / (t1 * d) <= n2 * u / (t2 * d) <==> n1 * t2 <= n2 * t1
  {
    Product(t1, d);
    Product(t2, d);
    FractionParts(n1, u, t1, d);
    FractionParts(n2, u, t2, d);
    CrossMultiply(n1, t1, n2, t2);
    Cancel(u / d, n1 / t1, n2 / t2);
  }

  lemma FractionParts(n: real, u: real, t: real, d: real)
    requires t * d > 0.0 && t > 0.0 && d > 0.0
    ensures n * u / (t * d) == (u / d) * (n / t)
  {
    var p, q := u / d, n / t;
    assert u == p * d && n == q * t;
    assert n * u == (p * q) * (t * d);
  }

  lemma Cancel(a: real, x: real, y: real)
    requires a > 0.0
    ensures a * x <= a * y <==> x <= y
  {
    if x <= y {
      Product(a, y - x);
    } else {
      Product(a, x - y);
    }
  }

  lemma CrossMultiply(a: real, x: real, b: real, y: real)
    requires x > 0.0 && y > 0.0
    ensures a / x <= b / y <==> a * y <= b * x
  {
    Product(x, y);
    QuotientTimes(a, x);
    QuotientTimes(b, y);
    Regroup(a / x, x, y);
    Regroup(b / y, y, x);
    Cancel(x * y, a / x, b / y);
  }

  lemma Regroup(p: real, x: real, y: real)
    ensures (p * x) * y == (x * y) * p == (y * x) * p
  {
  }

  /** The best throughput of `nb` micro-batches. */
  function Best(k: Costs, gbs: nat, nb: nat): (r: real)
    requires Sane(k) && gbs > 0 && nb > 0 && Possible(k, gbs, nb)
  {
    TimeIsPositive(k, gbs, nb);
    ThroughputOf(k, gbs, nb, BestTime(k, gbs, nb))
  }

  lemma NoSecondPeak(ti: real, tj: real, tn: real, i: nat, j: nat, n: nat)
    requires i < j <= n && BelowLine(ti, tj, tn, i, j, n) && j as real * ti < i as real * tj
    ensures n as real * ti < i as real * tn
  {
    var a, b, c := (n - i) as real, (n - j) as real, (j - i) as real;
    Weighted(i as real, ti, tj, tn, a, b, c);
    Weights(i as real, j as real, n as real, ti);
    Outweighed(a, i as real * tj, j as real * ti, (i as real * ti) * b, c, i as real * tn, n as real * ti);
  }

  lemma Outweighed(a: real, x: real, y: real, w: real, c: real, u: real, v: real)
    requires a > 0.0 && c > 0.0 && y < x && a * x <= w + c * u && w + c * v == a * y
    ensures v < u
  {
    Cancel(a, x, y);
    Cancel(c, u, v);
  }

  lemma Weighted(i: real, ti: real, tj: real, tn: real, a: real, b: real, c: real)
    requires i >= 0.0 && tj * a <= ti * b + tn * c
    ensures a * (i * tj) <= (i * ti) * b + c * (i * tn)
  {
    Grows(i, tj * a, ti * b + tn * c);
    assert i * (tj * a) == a * (i * tj);
    assert i * (ti * b + tn * c) == (i * ti) * b + c * (i * tn);
  }

  lemma Weights(i: real, j: real, n: real, t: real)
    ensures (i * t) * (n - j) + (j - i) * (n * t) == (n - i) * (j * t)
  {
  }

  /** Once throughput falls with a larger batch, it never recovers. */
  lemma OnePeak(k: Costs, gbs: nat, i: nat, j: nat, n: nat)
    requires Sane(k) && gbs > 0 && 0 < i < j <= n && Possible(k, gbs, n) && Possible(k, gbs, i) && Possible(k, gbs, j)
    requires Best(k, gbs, j) < Best(k, gbs, i)
    ensures Best(k, gbs, n) < Best(k, gbs, i)
  {
    var ti, tj, tn := BestTime(k, gbs, i), BestTime(k, gbs, j), BestTime(k, gbs, n);
    TimeIsPositive(k, gbs, i);
    TimeIsPositive(k, gbs, j);
    TimeIsPositive(k, gbs, n);
    BetweenBatches(k, gbs, i, j, n);
    Faster(k, gbs, i, ti, j, tj);
    Faster(k, gbs, i, ti, n, tn);
    NoSecondPeak(ti, tj, tn, i, j, n);
  }

  /** More sequences than this never fit. */
  function Limit(k: Costs): (r: nat)
    ensures r as real > k.gpuRoom
  {
    if k.gpuRoom < 0.0 then 0 else k.gpuRoom.Floor + 1
  }

  lemma BelowLimit(k: Costs, gbs: nat, nb: nat)
    requires Sane(k) && gbs > 0 && nb > 0 && Possible(k, gbs, nb)
    ensures gbs < Limit(k) && nb < Limit(k)
  {
    TooMany(k, gbs, nb);
    ManySequences(gbs, nb);
  }

  lemma ManySequences(gbs: nat, nb: nat)
    requires gbs > 0 && nb > 0
    ensures Sequences(gbs, nb) >= gbs as real && Sequences(gbs, nb) >= nb as real
  {
    var g, n := gbs as real, nb as real;
    RealProduct(gbs, nb);
    TimesAtLeastOne(g, n);
    TimesAtLeastOne(n, g);
  }

  lemma TimesAtLeastOne(a: real, b: real)
    requires a >= 0.0 && b >= 1.0
    ensures a * b >= a
  {
    Product(a, b - 1.0);
  }

  lemma BestIsPositive(k: Costs, gbs: nat, nb: nat)
    requires Sane(k) && gbs > 0 && nb > 0 && Possible(k, gbs, nb)
    ensures Best(k, gbs, nb) > 0.0
  {
    TimeIsPositive(k, gbs, nb);
    ThroughputPositive(k, gbs, nb, BestTime(k, gbs, nb));
  }

  lemma ThroughputPositive(k: Costs, gbs: nat, nb: nat, T: real)
    requires Sane(k) && gbs > 0 && nb > 0 && T > 0.0
    ensures ThroughputOf(k, gbs, nb, T) > 0.0
  {
    ManySequences(gbs, nb);
    PositiveFraction(Sequences(gbs, nb), k.tokens, T, k.tokens - 1.0, k.layers);
  }

  lemma PositiveFraction(a: real, b: real, t: real, d: real, e: real)
    requires a > 0.0 && b > 0.0 && t > 0.0 && d > 0.0 && e > 0.0
    ensures t * d * e > 0.0 && a * b / (t * d * e) > 0.0
  {
    Product(a, b);
    Product(t, d);
    Product(t * d, e);
  }

  /** The solver's contract: an optimal solution if there is any. */
  method SolveLp(k: Costs, gbs: nat, nb: nat) returns (r: Option<Lp>)
    requires Sane(k) && gbs > 0 && nb > 0
    ensures r.Some? ==> Constraints(k, gbs, nb, r.value)
    ensures forall y :: Constraints(k, gbs, nb, y) ==> r.Some? && r.value.T <= y.T
    ensures r.Some? <==> Possible(k, gbs, nb)
    ensures r.Some? ==> r.value.T == BestTime(k, gbs, nb) > 0.0
  {
    forall y | Constraints(k, gbs, nb, y)
      ensures Possible(k, gbs, nb) && BestTime(k, gbs, nb) <= y.T
    {
      BestTimeIsBest(k, gbs, nb, y);
    }
    if !Possible(k, gbs, nb) {
      return None;
    }
    TimeIsPositive(k, gbs, nb);
    return Some(BestSolution(k, gbs, nb));
  }
}
