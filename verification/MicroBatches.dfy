/**
 How a queue of requests is split into micro-batches: longest prompts first, each to the open
 partition with the smallest total, which closes when it is full.
*/
module MicroBatches {
  import opened Basics

  /** `inputLen` is measured before the prompt is truncated to the tokens that are really used. */
  datatype Req = Req(rid: int, inputLen: nat, promptLen: nat)

  /** Micro-batch size, number of micro-batches, tokens to generate, tokens a cache line holds. */
  datatype Limits = Limits(ubs: nat, nUb: nat, genLen: nat, line: nat)

  type Partition = seq<Req>

  datatype Packing = Packing(open: seq<Partition>, closed: seq<Partition>, aborted: seq<Req>)

  function Sum(p: Partition): nat {
    if p == [] then 0 else Sum(p[..|p| - 1]) + p[|p| - 1].inputLen
  }

  function Sums(ps: seq<Partition>): (r: seq<nat>)
    ensures |r| == |ps| && forall i :: 0 <= i < |ps| ==> r[i] == Sum(ps[i])
  {
    seq(|ps|, i requires 0 <= i < |ps| => Sum(ps[i]))
  }

  /** Prompts and all tokens generated for them. */
  function Demand(limits: Limits, p: Partition): nat {
    Sum(p) + Times(|p|, limits.genLen)
  }

  lemma SumOfGrown(p: Partition, r: Req)
    ensures Sum(p + [r]) == Sum(p) + r.inputLen
  {
    assert (p + [r])[..|p|] == p;
  }

  // ------------------------------------------------------------------------- the greedy packer

  /** The first position of the smallest element. */
  function ArgMin(s: seq<nat>): (r: nat)
    requires s != []
    ensures r < |s| && forall j :: 0 <= j < |s| ==> s[r] <= s[j]
    ensures forall j :: 0 <= j < r ==> s[r] < s[j]
  {
    if |s| == 1 then 0
    else
      var m := ArgMin(s[..|s| - 1]);
      if s[|s| - 1] < s[m] then |s| - 1 else m
  }

  /** The partition that gets the next request. */
  function Lightest(ps: seq<Partition>): (r: nat)
    requires ps != []
    ensures r < |ps| && forall j :: 0 <= j < |ps| ==> Sum(ps[r]) <= Sum(ps[j])
  {
    ArgMin(Sums(ps))
  }

  function Without<T>(s: seq<T>, i: nat): (r: seq<T>)
    requires i < |s|
    ensures |r| == |s| - 1
    ensures forall j :: 0 <= j < |r| ==> r[j] == s[if j < i then j else j + 1]
  {
    s[..i] + s[i + 1..]
  }

  /** Only the lightest partition is tried. */
  predicate Refused(limits: Limits, p: Packing, r: Req) {
    p.open == [] || Demand(limits, p.open[Lightest(p.open)] + [r]) > limits.line
  }

  function Place(limits: Limits, p: Packing, r: Req): Packing {
    if Refused(limits, p, r) then p.(aborted := p.aborted + [r])
    else
      var i := Lightest(p.open);
      var q := p.open[i] + [r];
      if |q| == limits.ubs then p.(closed := p.closed + [q], open := Without(p.open, i))
      else p.(open := p.open[i := q])
  }

  function Opened(limits: Limits): Packing {
    Packing(seq(limits.nUb, _ => []), [], [])
  }

  /** The packing of `reqs`, in their order. */
  function Pack(limits: Limits, reqs: seq<Req>): Packing {
    if reqs == [] then Opened(limits) else Place(limits, Pack(limits, reqs[..|reqs| - 1]), reqs[|reqs| - 1])
  }

  // ------------------------------------------------------------------- what every packing keeps

  ghost predicate Fits(limits: Limits, p: Partition) {
    |p| <= limits.ubs && Demand(limits, p) <= limits.line
  }

  ghost predicate OpenRight(limits: Limits, p: Partition) {
    |p| < limits.ubs && (p == [] || Fits(limits, p))
  }

  /** The number of partitions is fixed, open ones are not full, and all of them fit their line. */
  ghost predicate Sound(limits: Limits, p: Packing) {
    && |p.closed| + |p.open| == limits.nUb
    && (forall i :: 0 <= i < |p.open| ==> OpenRight(limits, p.open[i]))
    && (forall i :: 0 <= i < |p.closed| ==> Fits(limits, p.closed[i]))
  }

  lemma PlaceSound(limits: Limits, p: Packing, r: Req)
    requires Sound(limits, p)
    ensures Sound(limits, Place(limits, p, r))
  {
    if !Refused(limits, p, r) {
      assert OpenRight(limits, p.open[Lightest(p.open)]);
    }
  }

  lemma {:induction false} PackSound(limits: Limits, reqs: seq<Req>)
    requires limits.ubs > 0
    ensures Sound(limits, Pack(limits, reqs))
  {
    if reqs != [] {
      PackSound(limits, reqs[..|reqs| - 1]);
      PlaceSound(limits, Pack(limits, reqs[..|reqs| - 1]), reqs[|reqs| - 1]);
    }
  }

  // ------------------------------------------------------------- no request is lost or duplicated

  function Flat(ps: seq<Partition>): seq<Req> {
    if ps == [] then [] else Flat(ps[..|ps| - 1]) + ps[|ps| - 1]
  }

  lemma {:induction false} FlatConcat(a: seq<Partition>, b: seq<Partition>)
    ensures Flat(a + b) == Flat(a) + Flat(b)
  {
    if b == [] {
      assert a + b == a;
    } else {
      assert (a + b)[..|a + b| - 1] == a + b[..|b| - 1];
      FlatConcat(a, b[..|b| - 1]);
    }
  }

  lemma FlatOne(p: Partition)
    ensures Flat([p]) == p
  {
    assert [p][..0] == [];
  }

  lemma {:induction false} FlatEmpty(n: nat)
    ensures Flat(seq(n, _ => [])) == []
  {
    if n > 0 {
      assert seq<Partition>(n, _ => [])[..n - 1] == seq<Partition>(n - 1, _ => []);
      FlatEmpty(n - 1);
    }
  }

  lemma FlatParts(ps: seq<Partition>, i: nat, q: Partition)
    requires i < |ps|
    ensures multiset(Flat(ps)) == multiset(Flat(Without(ps, i))) + multiset(ps[i])
    ensures multiset(Flat(ps[i := q])) == multiset(Flat(Without(ps, i))) + multiset(q)
  {
    assert ps == ps[..i] + [ps[i]] + ps[i + 1..] && ps[i := q] == ps[..i] + [q] + ps[i + 1..];
    FlatConcat(ps[..i] + [ps[i]], ps[i + 1..]);
    FlatConcat(ps[..i], [ps[i]]);
    FlatConcat(ps[..i] + [q], ps[i + 1..]);
    FlatConcat(ps[..i], [q]);
    FlatConcat(ps[..i], ps[i + 1..]);
    FlatOne(ps[i]);
    FlatOne(q);
  }

  function Everyone(p: Packing): multiset<Req> {
    multiset(Flat(p.closed)) + multiset(Flat(p.open)) + multiset(p.aborted)
  }

  lemma PlaceAccounts(limits: Limits, p: Packing, r: Req)
    ensures Everyone(Place(limits, p, r)) == Everyone(p) + multiset{r}
  {
    if !Refused(limits, p, r) {
      var i := Lightest(p.open);
      var q := p.open[i] + [r];
      FlatParts(p.open, i, q);
      FlatConcat(p.closed, [q]);
      FlatOne(q);
      assert multiset(q) == multiset(p.open[i]) + multiset{r};
    }
  }

  lemma LastOf(reqs: seq<Req>)
    requires reqs != []
    ensures var n := |reqs| - 1;
            reqs == reqs[..n] + [reqs[n]] && multiset(reqs) == multiset(reqs[..n]) + multiset{reqs[n]}
  {
    var n := |reqs| - 1;
    assert reqs == reqs[..n] + [reqs[n]];
  }

  lemma {:induction false} PackAccounts(limits: Limits, reqs: seq<Req>)
    ensures Everyone(Pack(limits, reqs)) == multiset(reqs)
  {
    if reqs == [] {
      FlatEmpty(limits.nUb);
    } else {
      var n := |reqs| - 1;
      PackAccounts(limits, reqs[..n]);
      PlaceAccounts(limits, Pack(limits, reqs[..n]), reqs[n]);
      LastOf(reqs);
    }
  }

  // ---------------------------------------------------------------------------------- balance

  /** What a partition got last, if anything. */
  function LastLen(p: Partition): nat {
    if p == [] then 0 else p[|p| - 1].inputLen
  }

  /** Any two open partitions differ by at most the request put last into the heavier one. */
  ghost predicate Balanced(ps: seq<Partition>) {
    forall i, j :: 0 <= i < |ps| && 0 <= j < |ps| ==> Sum(ps[i]) <= Sum(ps[j]) + LastLen(ps[i])
  }

  lemma GrowBalanced(ps: seq<Partition>, i: nat, q: Partition)
    requires i < |ps| && Balanced(ps)
    requires forall j :: 0 <= j < |ps| ==> Sum(q) <= Sum(ps[j]) + LastLen(q)
    requires Sum(ps[i]) <= Sum(q)
    ensures Balanced(ps[i := q])
  {
    var t := ps[i := q];
    forall a, b | 0 <= a < |t| && 0 <= b < |t|
      ensures Sum(t[a]) <= Sum(t[b]) + LastLen(t[a])
    {
      assert a != i && b == i ==> Sum(ps[a]) <= Sum(ps[i]) + LastLen(ps[a]);
    }
  }

  lemma PlaceBalanced(limits: Limits, p: Packing, r: Req)
    requires Balanced(p.open)
    ensures Balanced(Place(limits, p, r).open)
  {
    if !Refused(limits, p, r) {
      var i := Lightest(p.open);
      SumOfGrown(p.open[i], r);
      GrowBalanced(p.open, i, p.open[i] + [r]);
    }
  }

  /** Balance holds after every request, over closings and aborts. */
  lemma {:induction false} PackBalanced(limits: Limits, reqs: seq<Req>)
    ensures Balanced(Pack(limits, reqs).open)
  {
    if reqs != [] {
      PackBalanced(limits, reqs[..|reqs| - 1]);
      PlaceBalanced(limits, Pack(limits, reqs[..|reqs| - 1]), reqs[|reqs| - 1]);
    }
  }

  // ------------------------------------------------------------------ no micro-batch stays idle

  function NonEmpty(ps: seq<Partition>): nat {
    if ps == [] then 0 else NonEmpty(ps[..|ps| - 1]) + if ps[|ps| - 1] == [] then 0 else 1
  }

  ghost predicate AllBusy(ps: seq<Partition>) {
    forall i :: 0 <= i < |ps| ==> ps[i] != []
  }

  ghost predicate AllSmall(ps: seq<Partition>) {
    forall i :: 0 <= i < |ps| ==> |ps[i]| <= 1
  }

  /** Either every open partition has a request, or no partition has got a second one yet. */
  ghost predicate Spread(p: Packing) {
    && (forall i :: 0 <= i < |p.open| && p.open[i] != [] ==> 0 < Sum(p.open[i]))
    && AllBusy(p.closed) && (AllBusy(p.open) || (AllSmall(p.open) && AllSmall(p.closed)))
  }

  lemma PlaceSpread(limits: Limits, p: Packing, r: Req)
    requires r.inputLen > 0 && Spread(p)
    ensures Spread(Place(limits, p, r))
  {
    if !Refused(limits, p, r) {
      SumOfGrown(p.open[Lightest(p.open)], r);
      if !AllBusy(p.open) {
        var j :| 0 <= j < |p.open| && p.open[j] == [];
        assert Sum(p.open[Lightest(p.open)]) <= Sum(p.open[j]);
      }
    }
  }

  lemma {:induction false} PackSpread(limits: Limits, reqs: seq<Req>)
    requires forall i :: 0 <= i < |reqs| ==> reqs[i].inputLen > 0
    ensures Spread(Pack(limits, reqs))
  {
    if reqs != [] {
      PackSpread(limits, reqs[..|reqs| - 1]);
      PlaceSpread(limits, Pack(limits, reqs[..|reqs| - 1]), reqs[|reqs| - 1]);
    }
  }

  lemma {:induction false} CountNonEmpty(ps: seq<Partition>)
    ensures AllBusy(ps) ==> NonEmpty(ps) == |ps| <= |Flat(ps)|
    ensures AllSmall(ps) ==> NonEmpty(ps) == |Flat(ps)| <= |ps|
  {
    if ps != [] {
      CountNonEmpty(ps[..|ps| - 1]);
    }
  }

  /** With positive lengths a micro-batch is left empty only when there are too few requests for all. */
  lemma NoneIdle(limits: Limits, reqs: seq<Req>)
    requires limits.ubs > 0 && forall i :: 0 <= i < |reqs| ==> reqs[i].inputLen > 0
    ensures var p := Pack(limits, reqs);
            var admitted := |reqs| - |p.aborted|;
            NonEmpty(p.closed) + NonEmpty(p.open) == if admitted < limits.nUb then admitted else limits.nUb
  {
    var p := Pack(limits, reqs);
    PackSpread(limits, reqs);
    PackSound(limits, reqs);
    PackAccounts(limits, reqs);
    CountNonEmpty(p.closed);
    CountNonEmpty(p.open);
    assert |Everyone(p)| == |multiset(reqs)|;
  }

  // ---------------------------------------------------------------------------------- the code

  predicate Descending(reqs: seq<Req>) {
    forall i, j :: 0 <= i < j < |reqs| ==> reqs[j].inputLen <= reqs[i].inputLen
  }

  /** `r` behind everything at least as long: a step of a stable sort, longest input first. */
  function Insert(reqs: seq<Req>, r: Req): (q: seq<Req>)
    ensures |q| == |reqs| + 1 && multiset(q) == multiset(reqs) + multiset{r}
    ensures Descending(reqs) ==> Descending(q)
    ensures q[|reqs|] == r || (reqs != [] && q[|reqs|] == reqs[|reqs| - 1])
  {
    if reqs == [] || reqs[|reqs| - 1].inputLen >= r.inputLen then reqs + [r]
    else
      var n := |reqs| - 1;
      LastOf(reqs);
      Insert(reqs[..n], r) + [reqs[n]]
  }

  function Sorted(reqs: seq<Req>): (q: seq<Req>)
    ensures |q| == |reqs| && multiset(q) == multiset(reqs) && Descending(q)
  {
    if reqs == [] then []
    else
      var n := |reqs| - 1;
      LastOf(reqs);
      Insert(Sorted(reqs[..n]), reqs[n])
  }

  /** The requests of one length, in their order. */
  function OfLength(reqs: seq<Req>, len: nat): seq<Req> {
    if reqs == [] then []
    else
      var n := |reqs| - 1;
      OfLength(reqs[..n], len) + if reqs[n].inputLen == len then [reqs[n]] else []
  }

  lemma LastOfLength(reqs: seq<Req>, last: Req, len: nat)
    ensures OfLength(reqs + [last], len) == OfLength(reqs, len) + if last.inputLen == len then [last] else []
  {
    assert (reqs + [last])[..|reqs|] == reqs;
  }

  lemma {:induction false} InsertKeepsOrder(reqs: seq<Req>, r: Req, len: nat)
    ensures OfLength(Insert(reqs, r), len) == OfLength(reqs, len) + if r.inputLen == len then [r] else []
  {
    if reqs == [] || reqs[|reqs| - 1].inputLen >= r.inputLen {
      LastOfLength(reqs, r, len);
    } else {
      var n := |reqs| - 1;
      InsertKeepsOrder(reqs[..n], r, len);
      LastOfLength(Insert(reqs[..n], r), reqs[n], len);
    }
  }

  /** The sort is stable: requests of the same length stay in the order of the queue. */
  lemma {:induction false} SortedIsStable(reqs: seq<Req>, len: nat)
    ensures OfLength(Sorted(reqs), len) == OfLength(reqs, len)
  {
    if reqs != [] {
      var n := |reqs| - 1;
      SortedIsStable(reqs[..n], len);
      InsertKeepsOrder(Sorted(reqs[..n]), reqs[n], len);
    }
  }

  method IndexOfMin(s: seq<nat>) returns (r: nat)
    requires s != []
    ensures r == ArgMin(s)
  {
    r := 0;
    assert s[..1] == [s[0]];
    for j := 1 to |s|
      invariant r < j <= |s| && r == ArgMin(s[..j])
    {
      assert s[..j + 1][..j] == s[..j];
      if s[j] < s[r] {
        r := j;
      }
    }
    assert s[..|s|] == s;
  }

  /** One request: aborted, or appended to the lightest partition, which is popped when full. */
  method Assign(limits: Limits, req: Req, ps: seq<Partition>, ss: seq<nat>, done: seq<Partition>, dropped: seq<Req>)
    returns (partitions: seq<Partition>, sums: seq<nat>, mbs: seq<Partition>, aborted: seq<Req>)
    requires ss == Sums(ps)
    ensures Packing(partitions, mbs, aborted) == Place(limits, Packing(ps, done, dropped), req)
    ensures sums == Sums(partitions)
  {
    partitions, sums, mbs, aborted := ps, ss, done, dropped;
    if |partitions| == 0 {
      aborted := aborted + [req];
    } else {
      var idx := IndexOfMin(sums);
      SumOfGrown(partitions[idx], req);
      if sums[idx] + req.inputLen + Times(1 + |partitions[idx]|, limits.genLen) > limits.line {
        aborted := aborted + [req];
      } else {
        partitions := partitions[idx := partitions[idx] + [req]];
        sums := sums[idx := sums[idx] + req.inputLen];
        if |partitions[idx]| == limits.ubs {
          mbs := mbs + [partitions[idx]];
          partitions := partitions[..idx] + partitions[idx + 1..];
          sums := sums[..idx] + sums[idx + 1..];
        }
      }
    }
  }

  /** The greedy loop over the requests in order. */
  method PackInOrder(limits: Limits, order: seq<Req>) returns (mbs: seq<Partition>, aborted: seq<Req>)
    ensures var p := Pack(limits, order); mbs == p.closed + p.open && aborted == p.aborted
  {
    var partitions: seq<Partition>, sums: seq<nat> := seq(limits.nUb, _ => []), seq(limits.nUb, _ => 0);
    mbs, aborted := [], [];
    assert order[..0] == [];
    for n := 0 to |order|
      invariant Packing(partitions, mbs, aborted) == Pack(limits, order[..n]) && sums == Sums(partitions)
    {
      assert order[..n + 1][..n] == order[..n];
      partitions, sums, mbs, aborted := Assign(limits, order[n], partitions, sums, mbs, aborted);
    }
    assert order[..|order|] == order;
    mbs := mbs + partitions;
  }

  /**
   Splits the queue. Fewer requests than one micro-batch holds go into a single one without further
   check; otherwise the requests are packed greedily, longest first.
  */
  method CreateMicroBatches(limits: Limits, queue: seq<Req>) returns (mbs: seq<Partition>, aborted: seq<Req>)
    requires limits.ubs > 0
    ensures |queue| < limits.ubs ==> mbs == [queue] && aborted == []
    ensures |queue| >= limits.ubs ==>
              var p := Pack(limits, Sorted(queue));
              mbs == p.closed + p.open && aborted == p.aborted
  {
    if |queue| < limits.ubs {
      mbs, aborted := [queue], [];
    } else {
      mbs, aborted := PackInOrder(limits, Sorted(queue));
    }
  }

  /** Outside warm-up: exactly `nUb` micro-batches that fit, and every request in one of them or aborted. */
  lemma MicroBatchesRight(limits: Limits, queue: seq<Req>)
    requires limits.ubs > 0
    ensures var p := Pack(limits, Sorted(queue));
            var mbs := p.closed + p.open;
            && |mbs| == limits.nUb
            && (forall k :: 0 <= k < |mbs| ==> mbs[k] == [] || Fits(limits, mbs[k]))
            && multiset(Flat(mbs)) + multiset(p.aborted) == multiset(queue)
  {
    var p := Pack(limits, Sorted(queue));
    PackSound(limits, Sorted(queue));
    PackAccounts(limits, Sorted(queue));
    FlatConcat(p.closed, p.open);
    assert forall k :: 0 <= k < |p.open| ==> OpenRight(limits, p.open[k]);
  }
}
