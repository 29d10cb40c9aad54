/**
 The linear program written out in the quantities of the configuration, constraint by constraint. The optimizer works on
 coefficients; this is what they stand for.
*/
module CostModel {
  import opened Basics
  import opened Optimizer

  /** Query heads per key/value head. */
  function KvGroup(c: Config): (r: nat)
    requires Sensible(c)
    ensures r > 0
  {
    assert c.nh / c.nkvh >= 1;
    c.nh / c.nkvh
  }

  /**
   The quantities of the configuration: `wi` are the bytes of all experts of a layer, `wOther` those of all other
   weights, and `hKv` the dimensions of the keys of a token.
  */
  datatype Quantities = Quantities(s: real, n: real, l: real, h1: real, h2: real, nh: real, nkvh: real, ne: real,
                                   topk: real, tp: real, hKv: real, wOther: real, wi: real)

  function QuantitiesOf(c: Config): Quantities
    requires Sensible(c)
  {
    var h1, h2, ne := c.h1 as real, c.h2 as real, c.nExperts as real;
    Quantities(c.s as real, c.n as real, c.l as real, h1, h2, c.nh as real, c.nkvh as real, ne, c.topk as real,
               c.tpSize as real, (c.h1 / KvGroup(c)) as real,
               ((4 * (c.h1 * c.h1) + 4 * (c.h1 * c.h1) / KvGroup(c)) * c.l) as real, 2.0 * 3.0 * h1 * h2 * ne)
  }

  // The right-hand sides, for `m` micro-batches of `g` sequences, `b` sequences in all.

  /** Operations of the experts that `g` tokens are routed to: three products, an addition for every multiplication. */
  function MlpWork(z: Quantities, g: real): real {
    2.0 * g * z.h1 * z.h2 * 3.0 * z.topk
  }

  /** Bytes of inputs and outputs, and of all experts of the layer. */
  function MlpTraffic(z: Quantities, g: real): real {
    2.0 * g * z.h1 + 2.0 * g * z.h2 + 2.0 * z.h1 * z.h2 * 3.0 * z.ne
  }

  /** Products and softmax over all keys of prompt and generated tokens. */
  function AttentionWork(z: Quantities, g: real): real
    requires z.nh != 0.0
  {
    g * 1.0 * (z.s + z.n) * z.nh * (z.h1 / z.nh) * 2.0 + g * 1.0 * (z.s + z.n) * z.nh * 2.0
  }

  /** Queries, keys, values and outputs, two bytes each. */
  function AttentionTraffic(z: Quantities, g: real): real
    requires z.nh != 0.0
  {
    var q, k := g * 1.0 * z.nh * (z.h1 / z.nh) * 2.0, g * (z.s + z.n) * z.nkvh * (z.h1 / z.nh) * 2.0;
    q + k + k + q
  }

  /** `work` in each of `m` micro-batches at some rate. */
  function TimeAt(work: real, rate: real, m: real): real
    requires rate > 0.0
  {
    Mul(Mul(1.0 / rate, work), m)
  }

  function GpuHomeD(z: Quantities, b: real, wg: real, cg: real): real {
    z.wOther + z.wi * z.l * wg + 2.0 * 2.0 * z.h1 * b * z.tp + 4.0 * (z.s + z.n) * z.hKv * b * z.l * cg
  }

  function GpuHomeP(z: Quantities, g: real, b: real, wg: real, cg: real, cc: real): real {
    z.wOther + z.wi * z.l * wg + 4.0 * z.s * z.hKv * b * cg + z.tp * (2.0 * z.h1 * g * 2.0 * z.s + z.h1 * b * 2.0 * z.s)
    + 4.0 * z.s * z.hKv * g * 2.0 * cc
  }

  function InterOf(z: Quantities, g: real): real {
    2.0 * (g * z.topk * z.h1 * z.tp * z.s + g * z.topk * 3.0 * z.h2 * z.s) * 1.2
  }

  function CpuHomeOf(z: Quantities, b: real, wc: real, cc: real): real {
    z.wi * z.l * wc + 4.0 * (z.s + z.n) * z.hKv * b * z.l * cc + 2.0 * z.h1 * b * z.s * z.tp
  }

  predicate TimesWritten(c: Config, g: real, m: real, wc: real, x: Durations)
    requires Sensible(c)
  {
    var z := QuantitiesOf(c);
    && x.ctog == Mul(1.0 / c.ctogBdw, Mul(z.wi, wc))
    && x.gpuT == x.gpuTAttn + x.gpuTMlp
    && x.gpuTMlp >= x.gpuCompMlp && x.gpuTMlp >= x.gpuCommMlp
    && x.gpuCompMlp == TimeAt(MlpWork(z, g), c.gpuFlops, m)
    && x.gpuCommMlp == TimeAt(MlpTraffic(z, g), c.gBdw, m)
    && x.gpuTAttn >= x.gpuCompAttn && x.gpuTAttn >= x.gpuCommAttn && x.gpuCompAttn == 0.0 && x.gpuCommAttn == 0.0
    && x.cpuT >= x.cpuComp && x.cpuT >= x.cpuComm
    && x.cpuComp == TimeAt(AttentionWork(z, g), c.cpuFlops, m)
    && x.cpuComm == TimeAt(AttentionTraffic(z, g), c.cBdw, m)
  }

  predicate MemoryWritten(z: Quantities, gpuRoom: real, cpuRoom: real, g: real, b: real, wg: real, wc: real, cg: real,
                          cc: real, x: Memory) {
    && x.gpuHome >= x.gpuHomeP && x.gpuHome >= x.gpuHomeD
    && x.gpuHomeD == GpuHomeD(z, b, wg, cg) && x.gpuHomeP == GpuHomeP(z, g, b, wg, cg, cc)
    && x.inter == InterOf(z, g) && x.gpuW == 2.0 * z.wi * (1.0 - wg) + x.inter
    && x.gpuHome + x.gpuW <= gpuRoom
    && x.cpuHome == CpuHomeOf(z, b, wc, cc) && x.cpuW == z.wi * (1.0 - wg) * 2.0
    && x.cpuHome + x.cpuW <= cpuRoom
  }

  /** `x` solves the program for `nb` micro-batches of `gbs` sequences. */
  predicate Program(c: Config, gbs: nat, nb: nat, x: Lp)
    requires Sensible(c)
  {
    var g, m, b := gbs as real, nb as real, (gbs * nb) as real;
    && x.wg >= 0.0 && x.wc >= 0.0 && x.cg >= 0.0 && x.cc >= 0.0 && x.T >= 0.0
    && DurationsNonNegative(x.times) && MemoryNonNegative(x.memory)
    && x.wg + x.wc == 1.0 && x.cg == 0.0 && x.cc == 1.0
    && x.T >= x.times.ctog && x.T >= x.times.cpuT && x.T >= x.times.gpuT
    && TimesWritten(c, g, m, x.wc, x.times)
    && MemoryWritten(QuantitiesOf(c), c.gmem * 0.86, c.cmem * 0.8, g, b, x.wg, x.wc, x.cg, x.cc, x.memory)
  }

  // ----------------------------------------------------------------------------------------------- times

  lemma TimedWork(work: real, rate: real, m: real, r: real)
    requires work >= 0.0 && rate > 0.0 && r == Seconds(work, rate)
    ensures TimeAt(work, rate, m) == Mul(r, m)
  {
  }

  lemma RatesAre(k: Costs, g: real, mlpComp: real, mlpComm: real, attnComp: real, attnComm: real)
    requires Sane(k) && g >= 0.0
    requires Mul(k.mlpComp, g) == mlpComp && Mul(k.mlpComm, g) + k.mlpCommFixed == mlpComm
    requires Mul(k.attnComp, g) == attnComp && Mul(k.attnComm, g) == attnComm
    ensures RatesOf(k, g) == Rates(mlpComp, mlpComm, attnComp, attnComm)
  {
  }

  lemma MlpWorkIs(z: Quantities, g: real)
    requires g >= 0.0 && z.h1 >= 0.0 && z.h2 >= 0.0 && z.topk >= 0.0
    ensures MlpFlops(z.h1, z.h2, g, z.topk) == MlpWork(z, g)
  {
  }

  lemma MlpTrafficIs(z: Quantities, g: real)
    requires g >= 0.0 && z.h1 >= 0.0 && z.h2 >= 0.0 && z.ne >= 0.0
    ensures MlpBytes(z.h1, z.h2, g, z.ne) == MlpTraffic(z, g)
  {
  }

  lemma MlpIs(c: Config, g: real)
    requires Sensible(c) && g >= 0.0
    ensures var k, z := CostsOf(c), QuantitiesOf(c);
            && MlpWork(z, g) >= 0.0 && Mul(k.mlpComp, g) == Seconds(MlpWork(z, g), c.gpuFlops)
            && MlpTraffic(z, g) >= 0.0 && Mul(k.mlpComm, g) + k.mlpCommFixed == Seconds(MlpTraffic(z, g), c.gBdw)
  {
    var z := QuantitiesOf(c);
    MlpWorkIs(z, g);
    MlpTrafficIs(z, g);
    MlpFlopsOfBatch(c, g);
    MlpBytesOfBatch(c, g);
  }

  lemma AttentionWorkIs(z: Quantities, g: real)
    requires g >= 0.0 && z.s + z.n >= 0.0 && z.nh > 0.0 && z.h1 / z.nh >= 0.0
    ensures AttentionFlops(g, 1.0, z.s + z.n, z.nh, z.h1 / z.nh) == AttentionWork(z, g)
  {
  }

  lemma AttentionTrafficIs(z: Quantities, g: real, d: real)
    requires g >= 0.0 && z.s + z.n >= 0.0 && z.nh > 0.0 && z.nkvh >= 0.0 && d == z.h1 / z.nh >= 0.0
    ensures AttentionBytes(g, 1.0, z.s + z.n, z.nh, z.nkvh, d) == AttentionTraffic(z, g)
  {
    assert AttentionBytes(g, 1.0, z.s + z.n, z.nh, z.nkvh, d)
        == g * 1.0 * z.nh * d * 2.0 + g * (z.s + z.n) * z.nkvh * d * 2.0 + g * (z.s + z.n) * z.nkvh * d * 2.0
           + g * 1.0 * z.nh * d * 2.0;
  }

  lemma AttentionIs(c: Config, g: real)
    requires Sensible(c) && g >= 0.0
    ensures var k, z := CostsOf(c), QuantitiesOf(c);
            && AttentionWork(z, g) >= 0.0 && Mul(k.attnComp, g) == Seconds(AttentionWork(z, g), c.cpuFlops)
            && AttentionTraffic(z, g) >= 0.0 && Mul(k.attnComm, g) == Seconds(AttentionTraffic(z, g), c.cBdw)
  {
    var z := QuantitiesOf(c);
    AttentionWorkIs(z, g);
    AttentionTrafficIs(z, g, c.h1 as real / c.nh as real);
    AttentionFlopsOfBatch(c, g);
    AttentionBytesOfBatch(c, g);
  }

  lemma TransferIs(k: Costs, bytes: real, rate: real, wc: real)
    requires wc >= 0.0 && Sane(k) && bytes >= 0.0 && rate > 0.0 && k.loadTime == Seconds(bytes, rate)
    ensures Mul(1.0 / rate, Mul(bytes, wc)) == Transfer(k, wc)
  {
    assert (1.0 / rate) * (bytes * wc) == ((1.0 / rate) * bytes) * wc;
  }

  lemma TimedRates(c: Config, z: Quantities, k: Costs, g: real, m: real)
    requires Sensible(c) && Sane(k) && g >= 0.0 && m >= 0.0 && z.nh != 0.0
    requires MlpWork(z, g) >= 0.0 && Mul(k.mlpComp, g) == Seconds(MlpWork(z, g), c.gpuFlops)
    requires MlpTraffic(z, g) >= 0.0 && Mul(k.mlpComm, g) + k.mlpCommFixed == Seconds(MlpTraffic(z, g), c.gBdw)
    requires AttentionWork(z, g) >= 0.0 && Mul(k.attnComp, g) == Seconds(AttentionWork(z, g), c.cpuFlops)
    requires AttentionTraffic(z, g) >= 0.0 && Mul(k.attnComm, g) == Seconds(AttentionTraffic(z, g), c.cBdw)
    ensures Compute(RatesOf(k, g), m) ==
            Work(0.0, TimeAt(MlpWork(z, g), c.gpuFlops, m), TimeAt(MlpTraffic(z, g), c.gBdw, m),
                 TimeAt(AttentionWork(z, g), c.cpuFlops, m), TimeAt(AttentionTraffic(z, g), c.cBdw, m))
  {
    var a, b := Seconds(MlpWork(z, g), c.gpuFlops), Seconds(MlpTraffic(z, g), c.gBdw);
    var d, e := Seconds(AttentionWork(z, g), c.cpuFlops), Seconds(AttentionTraffic(z, g), c.cBdw);
    RatesAre(k, g, a, b, d, e);
    TimedWork(MlpWork(z, g), c.gpuFlops, m, a);
    TimedWork(MlpTraffic(z, g), c.gBdw, m, b);
    TimedWork(AttentionWork(z, g), c.cpuFlops, m, d);
    TimedWork(AttentionTraffic(z, g), c.cBdw, m, e);
  }

  lemma TimesAre(c: Config, g: real, m: real, wc: real)
    requires Sensible(c) && g >= 0.0 && m >= 0.0 && wc >= 0.0
    ensures var z := QuantitiesOf(c);
            WorkOf(CostsOf(c), g, m, wc) ==
            Work(Mul(1.0 / c.ctogBdw, Mul(z.wi, wc)), TimeAt(MlpWork(z, g), c.gpuFlops, m),
                 TimeAt(MlpTraffic(z, g), c.gBdw, m), TimeAt(AttentionWork(z, g), c.cpuFlops, m),
                 TimeAt(AttentionTraffic(z, g), c.cBdw, m))
  {
    MlpIs(c, g);
    AttentionIs(c, g);
    TimedRates(c, QuantitiesOf(c), CostsOf(c), g, m);
    LoadTimeIs(c);
    TransferIs(CostsOf(c), QuantitiesOf(c).wi, c.ctogBdw, wc);
  }

  lemma LoadTimeIs(c: Config)
    requires Sensible(c)
    ensures QuantitiesOf(c).wi >= 0.0 && CostsOf(c).loadTime == Seconds(QuantitiesOf(c).wi, c.ctogBdw)
  {
    assert ExpertBytes(c.h1 as real, c.h2 as real, c.nExperts as real) == QuantitiesOf(c).wi;
  }

  // ---------------------------------------------------------------------------------------------- memory

  /** What the coefficients of memory are in these quantities. */
  predicate BytesOf(k: Costs, z: Quantities) {
    && k.layers == z.l && k.expertBytes == z.wi && k.otherBytes == z.wOther
    && k.hiddenBytes == 2.0 * 2.0 * z.h1 * z.tp && k.promptBytes == 2.0 * z.h1 * z.s * z.tp
    && k.kvBytes == 4.0 * (z.s + z.n) * z.hKv * z.l && k.promptKvBytes == 4.0 * z.s * z.hKv * 1.0
    && k.interBytes == 2.0 * (z.topk * z.h1 * z.tp * z.s + z.topk * 3.0 * z.h2 * z.s) * 1.2
  }

  lemma HiddenIs(h1: real, s: real, tp: real)
    requires h1 >= 1.0 && s >= 0.0 && tp >= 1.0
    ensures HiddenBytes(h1, tp) == 2.0 * 2.0 * h1 * tp && PromptBytes(h1, s, tp) == 2.0 * h1 * s * tp
  {
  }

  lemma KvIs(s: real, n: real, hKv: real, l: real)
    requires s >= 0.0 && n >= 0.0 && hKv >= 0.0 && l >= 0.0
    ensures KvBytes(s + n, hKv, l) == 4.0 * (s + n) * hKv * l && KvBytes(s, hKv, 1.0) == 4.0 * s * hKv * 1.0
  {
  }

  lemma InterBytesIs(topk: real, h1: real, tp: real, s: real, h2: real)
    requires topk >= 0.0 && h1 >= 0.0 && tp >= 0.0 && s >= 0.0 && h2 >= 0.0
    ensures InterBytes(topk, h1, tp, s, h2) == 2.0 * (topk * h1 * tp * s + topk * 3.0 * h2 * s) * 1.2
  {
  }

  lemma WeightBytesAre(c: Config)
    requires Sensible(c)
    ensures var k, z := CostsOf(c), QuantitiesOf(c);
            k.layers == z.l && k.expertBytes == z.wi && k.otherBytes == z.wOther
    ensures CostsOf(c).gpuRoom == c.gmem * 0.86 && CostsOf(c).cpuRoom == c.cmem * 0.8
  {
  }

  lemma StateBytesAre(c: Config)
    requires Sensible(c)
    ensures var k, z := CostsOf(c), QuantitiesOf(c);
            && k.hiddenBytes == HiddenBytes(z.h1, z.tp) && k.promptBytes == PromptBytes(z.h1, z.s, z.tp)
            && k.kvBytes == KvBytes(z.s + z.n, z.hKv, z.l) && k.promptKvBytes == KvBytes(z.s, z.hKv, 1.0)
            && k.interBytes == InterBytes(z.topk, z.h1, z.tp, z.s, z.h2)
  {
  }

  lemma BytesAre(c: Config)
    requires Sensible(c)
    ensures BytesOf(CostsOf(c), QuantitiesOf(c))
    ensures CostsOf(c).gpuRoom == c.gmem * 0.86 && CostsOf(c).cpuRoom == c.cmem * 0.8
  {
    WeightBytesAre(c);
    StateBytesAre(c);
    PlainBytes(CostsOf(c), QuantitiesOf(c));
  }

  lemma PlainBytes(k: Costs, z: Quantities)
    requires z.h1 >= 1.0 && z.h2 >= 0.0 && z.s >= 0.0 && z.n >= 0.0 && z.l >= 0.0 && z.tp >= 1.0 && z.topk >= 0.0
             && z.hKv >= 0.0
    requires k.layers == z.l && k.expertBytes == z.wi && k.otherBytes == z.wOther
    requires k.hiddenBytes == HiddenBytes(z.h1, z.tp) && k.promptBytes == PromptBytes(z.h1, z.s, z.tp)
    requires k.kvBytes == KvBytes(z.s + z.n, z.hKv, z.l) && k.promptKvBytes == KvBytes(z.s, z.hKv, 1.0)
    requires k.interBytes == InterBytes(z.topk, z.h1, z.tp, z.s, z.h2)
    ensures BytesOf(k, z)
  {
    HiddenIs(z.h1, z.s, z.tp);
    KvIs(z.s, z.n, z.hKv, z.l);
    InterBytesIs(z.topk, z.h1, z.tp, z.s, z.h2);
  }

  lemma HomeDIs(k: Costs, z: Quantities, b: real, wg: real, cg: real)
    requires Sane(k) && BytesOf(k, z) && b >= 0.0 && wg >= 0.0
    ensures GpuHomeD(z, b, wg, cg) == HomeD(k, b, wg) + CpuKv(k, b) * cg
  {
    assert k.kvBytes * b * cg == 4.0 * (z.s + z.n) * z.hKv * b * z.l * cg;
    assert k.hiddenBytes * b == 2.0 * 2.0 * z.h1 * b * z.tp;
  }

  lemma HomePIs(k: Costs, z: Quantities, g: real, b: real, wg: real, cg: real, cc: real)
    requires Sane(k) && BytesOf(k, z) && g >= 0.0 && b >= 0.0 && wg >= 0.0
    ensures GpuHomeP(z, g, b, wg, cg, cc) == HomeP(k, g, b, wg) + (k.promptKvBytes * b) * cg + KvBuffer(k, g) * cc
  {
    assert (k.promptKvBytes * b) * cg == 4.0 * z.s * z.hKv * b * cg;
    assert k.promptKvBytes * g * 2.0 * cc == 4.0 * z.s * z.hKv * g * 2.0 * cc;
    assert 2.0 * k.promptBytes * g + k.promptBytes * b == z.tp * (2.0 * z.h1 * g * 2.0 * z.s + z.h1 * b * 2.0 * z.s);
  }

  lemma InterIs(k: Costs, z: Quantities, g: real)
    requires Sane(k) && BytesOf(k, z) && g >= 0.0
    ensures InterOf(z, g) == Inter(k, g)
  {
  }

  lemma CpuHomeIs(k: Costs, z: Quantities, b: real, wc: real, cc: real)
    requires Sane(k) && BytesOf(k, z) && b >= 0.0 && wc >= 0.0
    ensures CpuHomeOf(z, b, wc, cc) == CpuHome(k, b, wc) + CpuKv(k, b) * cc
  {
    assert k.kvBytes * b * cc == 4.0 * (z.s + z.n) * z.hKv * b * z.l * cc;
    assert k.promptBytes * b == 2.0 * z.h1 * b * z.s * z.tp;
  }

  // --------------------------------------------------------------------------------------- the whole program

  lemma TimesWrittenIs(c: Config, g: real, m: real, wc: real, T: real, x: Durations)
    requires Sensible(c) && g >= 0.0 && m >= 0.0 && wc >= 0.0
    ensures TimesWritten(c, g, m, wc, x) && T >= x.ctog && T >= x.cpuT && T >= x.gpuT
            <==> TimeConstraints(WorkOf(CostsOf(c), g, m, wc), T, x)
  {
    TimesAre(c, g, m, wc);
  }

  lemma MemoryWrittenIs(k: Costs, z: Quantities, g: real, b: real, wg: real, wc: real, x: Memory)
    requires Sane(k) && BytesOf(k, z) && g >= 0.0 && b >= 0.0 && 0.0 <= wg <= 1.0 && wc >= 0.0
    ensures MemoryWritten(z, k.gpuRoom, k.cpuRoom, g, b, wg, wc, 0.0, 1.0, x)
            <==> MemoryConstraints(k, g, b, wg, wc, 0.0, 1.0, x)
  {
    HomeDIs(k, z, b, wg, 0.0);
    HomePIs(k, z, g, b, wg, 0.0, 1.0);
    InterIs(k, z, g);
    CpuHomeIs(k, z, b, wc, 1.0);
    PagesAre(k, z, wg);
  }

  lemma PagesAre(k: Costs, z: Quantities, wg: real)
    requires Sane(k) && BytesOf(k, z) && wg <= 1.0
    ensures 2.0 * z.wi * (1.0 - wg) == z.wi * (1.0 - wg) * 2.0 == Pages(k, wg)
  {
  }

  /** The program that is solved is the program as written. */
  lemma ProgramIs(c: Config, gbs: nat, nb: nat, x: Lp)
    requires Sensible(c)
    ensures Program(c, gbs, nb, x) <==> Constraints(CostsOf(c), gbs, nb, x)
  {
    var g, m, b := gbs as real, nb as real, Sequences(gbs, nb);
    if x.wg >= 0.0 && x.wc >= 0.0 && x.wg + x.wc == 1.0 && x.cg == 0.0 && x.cc == 1.0 {
      TimesWrittenIs(c, g, m, x.wc, x.T, x.times);
      BytesAre(c);
      MemoryWrittenIs(CostsOf(c), QuantitiesOf(c), g, b, x.wg, x.wc, x.memory);
    }
  }
}
