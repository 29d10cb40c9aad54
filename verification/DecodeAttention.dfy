/**
 Decode attention on what the pool holds: the kernel, run on the windows that the loop leaves, gives every request
 attention over its own prompt and its own generated tokens.
*/
module DecodeAttention {
  import opened Basics
  import opened MicroBatches
  import opened KvPool
  import opened Serving
  import opened Softmax
  import opened FlashAttention
  import ModelRpc

  /** How an entry of the pool is read: by head and dimension. */
  datatype Reader<!V> = Reader(key: V -> seq<seq<real>>, value: V -> seq<seq<real>>)

  /** Sizes of the attention layer: key/value heads, query heads for each, dimensions. */
  datatype Heads = Heads(kvHeads: nat, group: nat, dim: nat, scale: real)

  predicate HeadsFit(y: seq<seq<real>>, heads: nat, dim: nat) {
    |y| == heads && forall h :: 0 <= h < heads ==> |y[h]| == dim
  }

  ghost predicate Readable<V(!new)>(reader: Reader<V>, s: Heads) {
    forall v: V :: HeadsFit(reader.key(v), s.kvHeads, s.dim) && HeadsFit(reader.value(v), s.kvHeads, s.dim)
  }

  function KeysOf<V>(reader: Reader<V>, mem: seq<V>): (t: Tensor)
    ensures |t| == |mem| && forall i :: 0 <= i < |mem| ==> t[i] == reader.key(mem[i])
  {
    seq(|mem|, i requires 0 <= i < |mem| => reader.key(mem[i]))
  }

  function ValuesIn<V>(reader: Reader<V>, mem: seq<V>): (t: Tensor)
    ensures |t| == |mem| && forall i :: 0 <= i < |mem| ==> t[i] == reader.value(mem[i])
  {
    seq(|mem|, i requires 0 <= i < |mem| => reader.value(mem[i]))
  }

  /** `y` is attention of a query over a list of entries, through one of their heads. */
  ghost predicate AttendsOver<V(!new)>(exp: real -> real, reader: Reader<V>, scale: real, list: seq<V>, q: seq<real>,
                                       j: nat, d: nat, y: real) {
    var e := ScoresOf(scale, q, KeysOf(reader, list), 0, j);
    Total(exp, e, 0, |list|) > 0.0 && y == Attention(exp, e, ValuesOf(ValuesIn(reader, list), 0, j, d), |list|)
  }

  lemma SameEntry<V(!new)>(reader: Reader<V>, scale: real, mem: seq<V>, lo: nat, list: seq<V>, q: seq<real>, j: nat,
                           d: nat, t: nat)
    requires t < |list| && lo + t < |mem| && mem[lo + t] == list[t]
    ensures ScoresOf(scale, q, KeysOf(reader, mem), lo, j)(t) == ScoresOf(scale, q, KeysOf(reader, list), 0, j)(t)
    ensures ValuesOf(ValuesIn(reader, mem), lo, j, d)(t) == ValuesOf(ValuesIn(reader, list), 0, j, d)(t)
  {
    assert KeysOf(reader, mem)[lo + t] == KeysOf(reader, list)[0 + t];
    assert ValuesIn(reader, mem)[lo + t] == ValuesIn(reader, list)[0 + t];
  }

  /** Attention over a window of the pool is attention over the list that stands in it. */
  lemma WindowIsListAttention<V(!new)>(exp: real -> real, reader: Reader<V>, scale: real, mem: seq<V>, lo: nat,
                                       list: seq<V>, q: seq<real>, j: nat, d: nat, y: real)
    requires lo + |list| <= |mem| && mem[lo..lo + |list|] == list
    requires var e := ScoresOf(scale, q, KeysOf(reader, mem), lo, j);
             Total(exp, e, 0, |list|) > 0.0
             && y == Attention(exp, e, ValuesOf(ValuesIn(reader, mem), lo, j, d), |list|)
    ensures AttendsOver(exp, reader, scale, list, q, j, d, y)
  {
    var e, v := ScoresOf(scale, q, KeysOf(reader, mem), lo, j), ValuesOf(ValuesIn(reader, mem), lo, j, d);
    var f, w := ScoresOf(scale, q, KeysOf(reader, list), 0, j), ValuesOf(ValuesIn(reader, list), 0, j, d);
    forall t | 0 <= t < |list|
      ensures e(t) == f(t) && v(t) == w(t)
    {
      assert mem[lo + t] == mem[lo..lo + |list|][t];
      SameEntry(reader, scale, mem, lo, list, q, j, d, t);
    }
    SameSums(exp, e, f, v, w, |list|);
  }

  /** The output of a request: every query head attends to its history through the key/value head of its group. */
  ghost predicate RequestAttends<V(!new)>(exp: real -> real, reader: Reader<V>, s: Heads, list: seq<V>,
                                          q: seq<seq<real>>, y: seq<seq<real>>)
    requires HeadsFit(q, Times(s.kvHeads, s.group), s.dim) && HeadsFit(y, Times(s.kvHeads, s.group), s.dim)
  {
    forall j: nat, row: nat, d: nat :: j < s.kvHeads && row < s.group && d < s.dim ==>
      HeadAttends(exp, reader, s, list, q, y, j, row, d)
  }

  ghost predicate HeadAttends<V(!new)>(exp: real -> real, reader: Reader<V>, s: Heads, list: seq<V>,
                                       q: seq<seq<real>>, y: seq<seq<real>>, j: nat, row: nat, d: nat)
    requires HeadsFit(q, Times(s.kvHeads, s.group), s.dim) && HeadsFit(y, Times(s.kvHeads, s.group), s.dim)
    requires j < s.kvHeads && row < s.group && d < s.dim
  {
    TimesGrows(j + 1, s.kvHeads, s.group);
    var h := Times(j, s.group) + row;
    AttendsOver(exp, reader, s.scale, list, q[h], j, d, y[h][d])
  }

  /** The windows of a micro-batch in an attended layer after `t` decode steps. */
  ghost predicate WindowsRight<V(!new)>(feed: Feed<V>, slots: nat, i: nat, mb: Partition, t: nat, mem: seq<V>,
                                        start: seq<nat>, lens: seq<nat>) {
    && |start| == |lens| == |mb|
    && forall m :: 0 <= m < |mb| ==> WindowRight(feed, slots, i, mb[m], t, mem, start[m], lens[m])
  }

  lemma HeadRight<V(!new)>(exp: real -> real, reader: Reader<V>, s: Heads, list: seq<V>, mem: seq<V>, x: Input,
                           y: Tensor, m: nat, j: nat, row: nat, d: nat)
    requires FittingContents(x, y) && m < |x.q| && j < s.kvHeads && row < s.group && d < s.dim
    requires x.key == KeysOf(reader, mem) && x.value == ValuesIn(reader, mem)
    requires x.kvHeads == s.kvHeads && x.group == s.group && x.dim == s.dim && x.scale == s.scale
    requires |list| == x.lens[m] && mem[x.start[m]..x.start[m] + x.lens[m]] == list
    requires IsAttention(exp, x, m, j, row, d, Cell(x, y, m, j, row, d))
    ensures HeadAttends(exp, reader, s, list, x.q[m], y[m], j, row, d)
  {
    TimesGrows(j + 1, s.kvHeads, s.group);
    var h := Times(j, s.group) + row;
    WindowIsListAttention(exp, reader, s.scale, mem, x.start[m], list, x.q[m][h], j, d, y[m][h][d]);
  }

  lemma RequestRight<V(!new)>(exp: real -> real, reader: Reader<V>, s: Heads, feed: Feed<V>, slots: nat, i: nat, r: Req,
                              t: nat, mem: seq<V>, x: Input, y: Tensor, m: nat)
    requires FeedFits(feed) && FittingContents(x, y) && m < |x.q|
    requires x.key == KeysOf(reader, mem) && x.value == ValuesIn(reader, mem)
    requires x.kvHeads == s.kvHeads && x.group == s.group && x.dim == s.dim && x.scale == s.scale
    requires Attends(slots, i) && WindowRight(feed, slots, i, r, t, mem, x.start[m], x.lens[m])
    requires forall j: nat :: j < x.kvHeads ==> Attended(exp, x, y, m, j)
    ensures RequestAttends(exp, reader, s, HistoryOf(feed, i, r, t), x.q[m], y[m])
  {
    HistoryShape(feed, i, r, t);
    forall j: nat, row: nat, d: nat | j < s.kvHeads && row < s.group && d < s.dim
      ensures HeadAttends(exp, reader, s, HistoryOf(feed, i, r, t), x.q[m], y[m], j, row, d)
    {
      assert Attended(exp, x, y, m, j);
      assert IsAttention(exp, x, m, j, row, d, Cell(x, y, m, j, row, d));
      HeadRight(exp, reader, s, HistoryOf(feed, i, r, t), mem, x, y, m, j, row, d);
    }
  }

  /** The kernel on the windows of a micro-batch, over any cut of the heads and any block size. */
  method AttendMicroBatch<V(!new)>(exp: real -> real, reader: Reader<V>, s: Heads, ghost feed: Feed<V>,
                                   ghost slots: nat, ghost i: nat, ghost mb: Partition, ghost t: nat, mem: seq<V>,
                                   start: seq<nat>, lens: seq<nat>, q: Tensor, out: array3<real>, cuts: seq<nat>,
                                   split: nat)
    requires Exponential(exp) && Readable(reader, s) && FeedFits(feed) && s.kvHeads > 0 && split > 0
    requires Attends(slots, i) && WindowsRight(feed, slots, i, mb, t, mem, start, lens)
    requires forall m :: 0 <= m < |mb| ==> mb[m].promptLen + t > 0
    requires |q| == |mb| && Shaped(q, Times(s.kvHeads, s.group), s.dim)
    requires out.Length0 == |mb| && out.Length1 == Times(s.kvHeads, s.group) && out.Length2 == s.dim
    requires |cuts| > 0 && cuts[0] == 0 && cuts[|cuts| - 1] == Times(|mb|, s.kvHeads)
    requires forall a, b :: 0 <= a <= b < |cuts| ==> cuts[a] <= cuts[b]
    modifies out
    ensures forall m :: 0 <= m < |mb| ==>
              RequestAttends(exp, reader, s, HistoryOf(feed, i, mb[m], t), q[m], Contents(out)[m])
  {
    var x := Input(q, KeysOf(reader, mem), ValuesIn(reader, mem), start, lens, s.kvHeads, s.group, s.dim, s.scale);
    CpuFlashDecodeGqa(exp, x, out, cuts, split);
    forall m | 0 <= m < |mb|
      ensures RequestAttends(exp, reader, s, HistoryOf(feed, i, mb[m], t), q[m], Contents(out)[m])
    {
      RequestRight(exp, reader, s, feed, slots, i, mb[m], t, mem, x, Contents(out), m);
    }
  }

  // ---------------------------------------------------------------------------------------- a whole queue

  lemma {:induction false} InFlat(ps: seq<Partition>, k: nat, m: nat)
    requires k < |ps| && m < |ps[k]|
    ensures ps[k][m] in Flat(ps)
  {
    if k < |ps| - 1 {
      InFlat(ps[..|ps| - 1], k, m);
    }
  }

  function QueriesOf(query: Req -> seq<seq<real>>, mb: Partition): (q: Tensor)
    ensures |q| == |mb| && forall m :: 0 <= m < |mb| ==> q[m] == query(mb[m])
  {
    seq(|mb|, m requires 0 <= m < |mb| => query(mb[m]))
  }

  ghost predicate QueriesFit(query: Req -> seq<seq<real>>, s: Heads) {
    forall r: Req :: HeadsFit(query(r), Times(s.kvHeads, s.group), s.dim)
  }

  /** The output of a micro-batch in a layer after `t` decode steps. */
  ghost predicate BatchAttends<V(!new)>(exp: real -> real, reader: Reader<V>, s: Heads, feed: Feed<V>, i: nat,
                                        mb: Partition, t: nat, query: Req -> seq<seq<real>>, out: array3<real>)
    requires QueriesFit(query, s)
    reads out
  {
    && out.Length0 == |mb| && out.Length1 == Times(s.kvHeads, s.group) && out.Length2 == s.dim
    && forall m :: 0 <= m < |mb| ==>
         RequestAttends(exp, reader, s, HistoryOf(feed, i, mb[m], t), query(mb[m]), Contents(out)[m])
  }

  method DecodeBatch<V(!new)>(exp: real -> real, reader: Reader<V>, s: Heads, ghost feed: Feed<V>, ghost slots: nat,
                              i: nat, mb: Partition, ghost t: nat, mem: seq<V>, batch: Batch,
                              query: Req -> seq<seq<real>>, split: nat) returns (out: array3<real>)
    requires Exponential(exp) && Readable(reader, s) && FeedFits(feed) && QueriesFit(query, s)
    requires s.kvHeads > 0 && split > 0 && Attends(slots, i)
    requires forall m :: 0 <= m < |mb| ==> mb[m].promptLen + t > 0
    requires |mb| <= |batch.startLoc| && |mb| <= |batch.seqLens|
    requires WindowsRight(feed, slots, i, mb, t, mem, batch.startLoc[..|mb|], batch.seqLens[..|mb|])
    ensures fresh(out) && BatchAttends(exp, reader, s, feed, i, mb, t, query, out)
  {
    out := new real[|mb|, Times(s.kvHeads, s.group), s.dim];
    AttendMicroBatch(exp, reader, s, feed, slots, i, mb, t, mem, batch.startLoc[..|mb|], batch.seqLens[..|mb|],
      QueriesOf(query, mb), out, [0, Times(|mb|, s.kvHeads)], split);
  }

  lemma Prompted(mbs: seq<Partition>, aborted: seq<Req>, queue: seq<Req>, k: nat)
    requires multiset(Flat(mbs)) + multiset(aborted) == multiset(queue) && k < |mbs|
    requires forall r :: r in queue ==> r.promptLen > 0
    ensures forall m :: 0 <= m < |mbs[k]| ==> mbs[k][m].promptLen > 0
  {
    forall m | 0 <= m < |mbs[k]|
      ensures mbs[k][m].promptLen > 0
    {
      InFlat(mbs, k, m);
      assert mbs[k][m] in multiset(queue);
    }
  }

  lemma RightWindows<V(!new)>(feed: Feed<V>, mbs: seq<Partition>, t: nat, batches: seq<Batch>, mems: seq<seq<V>>,
                              i: nat, k: nat)
    requires AllRight(feed, mbs, t, batches, mems) && i < |mems| && k < |mbs|
    ensures var n := |mbs[k]|;
            && n <= |batches[k].startLoc| && n <= |batches[k].seqLens|
            && WindowsRight(feed, |mbs|, i, mbs[k], t, mems[i], batches[k].startLoc[..n], batches[k].seqLens[..n])
  {
    if mbs[k] != [] {
      assert WindowRight(feed, |mbs|, i, mbs[k][|mbs[k]| - 1], t, mems[i], batches[k].startLoc[|mbs[k]| - 1],
                         batches[k].seqLens[|mbs[k]| - 1]);
    }
  }

  /** The kernel for every micro-batch in turn. */
  method DecodeBatches<V(!new)>(exp: real -> real, reader: Reader<V>, s: Heads, ghost feed: Feed<V>, i: nat,
                                mbs: seq<Partition>, ghost t: nat, mems: seq<seq<V>>, batches: seq<Batch>,
                                query: Req -> seq<seq<real>>, split: nat) returns (outs: seq<array3<real>>)
    requires Exponential(exp) && Readable(reader, s) && FeedFits(feed) && QueriesFit(query, s)
    requires s.kvHeads > 0 && split > 0 && Attends(|mbs|, i) && i < |mems|
    requires forall k, m :: 0 <= k < |mbs| && 0 <= m < |mbs[k]| ==> mbs[k][m].promptLen > 0
    requires AllRight(feed, mbs, t, batches, mems)
    ensures |outs| == |mbs| && fresh(outs)
    ensures forall k :: 0 <= k < |mbs| ==> BatchAttends(exp, reader, s, feed, i, mbs[k], t, query, outs[k])
  {
    outs := [];
    while |outs| < |mbs|
      invariant |outs| <= |mbs| && fresh(outs)
      invariant forall k :: 0 <= k < |outs| ==> BatchAttends(exp, reader, s, feed, i, mbs[k], t, query, outs[k])
    {
      RightWindows(feed, mbs, t, batches, mems, i, |outs|);
      var out := DecodeBatch(exp, reader, s, feed, |mbs|, i, mbs[|outs|], t, mems[i], batches[|outs|], query, split);
      outs := outs + [out];
    }
  }

  /**
   From the queue to the last decode step: in a layer whose attention is issued, the kernel gives every admitted
   request attention over its own prompt and all tokens generated for it, whatever the other requests are.
  */
  method DecodeQueue<V(!new)>(limits: Limits, avgPrompt: nat, layers: nat, queue: seq<Req>, feed: Feed<V>, empty: V,
                              exp: real -> real, reader: Reader<V>, s: Heads, i: nat, query: Req -> seq<seq<real>>,
                              split: nat)
    returns (mbs: seq<Partition>, aborted: seq<Req>, outs: seq<array3<real>>)
    requires limits.genLen > 0 && limits.line == limits.ubs * (avgPrompt + limits.genLen)
    requires FeedFits(feed) && Servable(limits, queue) && forall r :: r in queue ==> r.promptLen > 0
    requires Exponential(exp) && Readable(reader, s) && QueriesFit(query, s) && s.kvHeads > 0 && split > 0
    requires i < layers && (i == 0 || (|queue| >= limits.ubs && limits.nUb > 2))
    ensures multiset(Flat(mbs)) + multiset(aborted) == multiset(queue) && |outs| == |mbs|
    ensures var t := ModelRpc.DecodeSteps(|mbs|, limits.genLen);
            forall k :: 0 <= k < |mbs| ==> BatchAttends(exp, reader, s, feed, i, mbs[k], t, query, outs[k])
  {
    var batches, pool;
    mbs, aborted, batches, pool := ServeQueue(limits, avgPrompt, layers, queue, feed, empty);
    forall k | 0 <= k < |mbs|
      ensures forall m :: 0 <= m < |mbs[k]| ==> mbs[k][m].promptLen > 0
    {
      Prompted(mbs, aborted, queue, k);
    }
    outs := DecodeBatches(exp, reader, s, feed, i, mbs, ModelRpc.DecodeSteps(|mbs|, limits.genLen), pool.kvDataCpu,
      batches, query, split);
  }
}
