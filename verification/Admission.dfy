/**
 Who is admitted: when an aborted request really had no place, and how many requests are needed to keep every
 micro-batch busy.
*/
module Admission {
  import opened Basics
  import opened MicroBatches

  ghost predicate Positive(reqs: seq<Req>) {
    forall i :: 0 <= i < |reqs| ==> reqs[i].inputLen > 0
  }

  // ------------------------------------------------------------------------ enough requests for all

  /** A partition of its own would hold the request. */
  predicate FitsAlone(limits: Limits, r: Req) {
    r.inputLen + limits.genLen <= limits.line
  }

  /** The number of such requests: something that can be told without packing. */
  function FitCount(limits: Limits, reqs: seq<Req>): (n: nat)
    ensures n <= |reqs|
  {
    if reqs == [] then 0
    else FitCount(limits, reqs[..|reqs| - 1]) + if FitsAlone(limits, reqs[|reqs| - 1]) then 1 else 0
  }

  /** What is admitted would also fit alone. */
  lemma RefusedAlone(limits: Limits, p: Packing, r: Req)
    requires !Refused(limits, p, r)
    ensures FitsAlone(limits, r)
  {
    var q := p.open[Lightest(p.open)];
    SumOfGrown(q, r);
    TimesGrows(1, |q| + 1, limits.genLen);
    assert Times(1, limits.genLen) == limits.genLen;
  }

  /** An empty partition takes whatever fits alone. */
  lemma TakenByEmpty(limits: Limits, p: Packing, r: Req)
    requires Spread(p) && !AllBusy(p.open) && FitsAlone(limits, r)
    ensures !Refused(limits, p, r)
  {
    var j :| 0 <= j < |p.open| && p.open[j] == [];
    var q := p.open[Lightest(p.open)];
    assert Sum(q) <= Sum(p.open[j]) == 0;
    assert q == [];
    SumOfGrown(q, r);
    assert Times(1, limits.genLen) == limits.genLen;
  }

  function Admitted(limits: Limits, reqs: seq<Req>): int {
    |reqs| - |Pack(limits, reqs).aborted|
  }

  /** As long as a partition is empty, exactly those that fit alone are admitted. */
  lemma {:induction false} AdmittedOrFull(limits: Limits, reqs: seq<Req>)
    requires limits.ubs > 0 && Positive(reqs)
    ensures Admitted(limits, reqs) <= FitCount(limits, reqs)
    ensures Admitted(limits, reqs) >= limits.nUb || Admitted(limits, reqs) == FitCount(limits, reqs)
  {
    if reqs != [] {
      var n := |reqs| - 1;
      AdmittedOrFull(limits, reqs[..n]);
      var p := Pack(limits, reqs[..n]);
      if !Refused(limits, p, reqs[n]) {
        RefusedAlone(limits, p, reqs[n]);
      } else if Admitted(limits, reqs[..n]) < limits.nUb && FitsAlone(limits, reqs[n]) {
        SomeEmpty(limits, reqs[..n]);
        TakenByEmpty(limits, p, reqs[n]);
        assert false;
      }
    }
  }

  /** Fewer admitted requests than micro-batches leave an open partition empty. */
  lemma SomeEmpty(limits: Limits, reqs: seq<Req>)
    requires limits.ubs > 0 && Positive(reqs) && Admitted(limits, reqs) < limits.nUb
    ensures Spread(Pack(limits, reqs)) && !AllBusy(Pack(limits, reqs).open)
  {
    var p := Pack(limits, reqs);
    PackSpread(limits, reqs);
    NoneIdle(limits, reqs);
    PackSound(limits, reqs);
    BusyCount(p.closed);
    BusyCount(p.open);
  }

  lemma {:induction false} BusyCount(ps: seq<Partition>)
    ensures NonEmpty(ps) <= |ps| && (NonEmpty(ps) == |ps| <==> AllBusy(ps))
  {
    if ps != [] {
      BusyCount(ps[..|ps| - 1]);
      assert forall i :: 0 <= i < |ps| - 1 ==> ps[..|ps| - 1][i] == ps[i];
    }
  }

  lemma {:induction false} FitCountOfInsert(limits: Limits, reqs: seq<Req>, r: Req)
    ensures FitCount(limits, Insert(reqs, r)) == FitCount(limits, reqs) + if FitsAlone(limits, r) then 1 else 0
  {
    if reqs == [] || reqs[|reqs| - 1].inputLen >= r.inputLen {
      assert (reqs + [r])[..|reqs|] == reqs;
    } else {
      var n := |reqs| - 1;
      FitCountOfInsert(limits, reqs[..n], r);
      assert Insert(reqs, r)[..|reqs|] == Insert(reqs[..n], r);
    }
  }

  lemma {:induction false} FitCountOfSorted(limits: Limits, reqs: seq<Req>)
    ensures FitCount(limits, Sorted(reqs)) == FitCount(limits, reqs)
  {
    if reqs != [] {
      var n := |reqs| - 1;
      FitCountOfSorted(limits, reqs[..n]);
      FitCountOfInsert(limits, Sorted(reqs[..n]), reqs[n]);
    }
  }

  lemma SortedPositive(queue: seq<Req>)
    requires Positive(queue)
    ensures Positive(Sorted(queue))
  {
    var sorted := Sorted(queue);
    forall i | 0 <= i < |sorted|
      ensures sorted[i].inputLen > 0
    {
      assert sorted[i] in multiset(queue);
    }
  }

  /** No micro-batch stays empty if and only if enough requests would fit alone. */
  lemma NoneEmptyIffEnoughFit(limits: Limits, queue: seq<Req>)
    requires limits.ubs > 0 && Positive(queue)
    ensures var p := Pack(limits, Sorted(queue));
            AllBusy(p.closed + p.open) <==> FitCount(limits, queue) >= limits.nUb
  {
    var sorted := Sorted(queue);
    var p := Pack(limits, sorted);
    SortedPositive(queue);
    FitCountOfSorted(limits, queue);
    AdmittedOrFull(limits, sorted);
    NoneIdle(limits, sorted);
    PackSound(limits, sorted);
    BusyCount(p.closed);
    BusyCount(p.open);
    assert AllBusy(p.closed + p.open) <==> AllBusy(p.closed) && AllBusy(p.open) by {
      BusyConcat(p.closed, p.open);
    }
  }

  lemma BusyConcat(a: seq<Partition>, b: seq<Partition>)
    ensures AllBusy(a + b) <==> AllBusy(a) && AllBusy(b)
  {
    assert forall i :: 0 <= i < |a| ==> (a + b)[i] == a[i];
    assert forall i :: 0 <= i < |b| ==> (a + b)[|a| + i] == b[i];
  }

  // ---------------------------------------------------------------- aborted although there was a place

  /** The partition can hold the request. */
  predicate CanHold(limits: Limits, p: Partition, r: Req) {
    Demand(limits, p + [r]) <= limits.line
  }

  /** A request is aborted only if no open partition can hold it. */
  ghost predicate AbortsOnlyFull(limits: Limits, reqs: seq<Req>) {
    reqs == [] ||
    var n := |reqs| - 1;
    AbortsOnlyFull(limits, reqs[..n]) && AbortedOnlyFull(limits, Pack(limits, reqs[..n]), reqs[n])
  }

  ghost predicate AbortedOnlyFull(limits: Limits, p: Packing, r: Req) {
    Refused(limits, p, r) ==> forall j :: 0 <= j < |p.open| ==> !CanHold(limits, p.open[j], r)
  }

  /** What is asked of the packer: outside warm-up, a request is aborted only if no open partition can hold it. */
  ghost predicate HonestFor(limits: Limits, queue: seq<Req>) {
    |queue| >= limits.ubs && Positive(queue) ==> AbortsOnlyFull(limits, Sorted(queue))
  }

  // What the open partitions keep when the longest come first.

  /** Open partitions are opened in turn, so that their first requests do not grow. */
  ghost predicate HeadsFall(ps: seq<Partition>) {
    forall i, j :: 0 <= i < j < |ps| && ps[j] != [] ==> ps[i] != [] && ps[j][0].inputLen <= ps[i][0].inputLen
  }

  /** Every request in an open partition is at least as long as `bound`. */
  ghost predicate AtLeast(ps: seq<Partition>, bound: nat) {
    forall i, m :: 0 <= i < |ps| && 0 <= m < |ps[i]| ==> ps[i][m].inputLen >= bound
  }

  ghost predicate Heaped(p: Packing, bound: nat) {
    Spread(p) && HeadsFall(p.open) && AtLeast(p.open, bound)
  }

  lemma WithoutHeaped(ps: seq<Partition>, i: nat, bound: nat)
    requires i < |ps| && HeadsFall(ps) && AtLeast(ps, bound)
    ensures HeadsFall(Without(ps, i)) && AtLeast(Without(ps, i), bound)
  {
  }

  lemma GrownHeaped(ps: seq<Partition>, i: nat, r: Req, bound: nat)
    requires i < |ps| && HeadsFall(ps) && AtLeast(ps, bound) && r.inputLen <= bound
    requires ps[i] == [] ==> forall j :: 0 <= j < i ==> ps[j] != []
    ensures HeadsFall(ps[i := ps[i] + [r]]) && AtLeast(ps[i := ps[i] + [r]], r.inputLen)
  {
    var t: seq<Partition> := ps[i := ps[i] + [r]];
    forall k: nat, j: nat | k < j < |t| && t[j] != []
      ensures t[k] != [] && t[j][0].inputLen <= t[k][0].inputLen
    {
      if j == i && ps[i] == [] {
        assert ps[k] != [] && ps[k][0].inputLen >= bound;
      }
    }
  }

  lemma PlaceHeaped(limits: Limits, p: Packing, r: Req, bound: nat)
    requires 0 < r.inputLen <= bound && Heaped(p, bound)
    ensures Heaped(Place(limits, p, r), r.inputLen)
  {
    PlaceSpread(limits, p, r);
    if !Refused(limits, p, r) {
      var i := Lightest(p.open);
      FirstEmpty(p, i);
      GrownHeaped(p.open, i, r, bound);
      WithoutHeaped(p.open, i, bound);
    }
  }

  /** The lightest partition is the first empty one, if there is any. */
  lemma FirstEmpty(p: Packing, i: nat)
    requires Spread(p) && p.open != [] && i == Lightest(p.open)
    ensures p.open[i] == [] ==> forall j :: 0 <= j < i ==> p.open[j] != []
  {
    forall j | 0 <= j < i && p.open[i] == []
      ensures p.open[j] != []
    {
      assert Sums(p.open)[j] == Sum(p.open[j]);
    }
  }

  lemma {:induction false} PackHeaped(limits: Limits, reqs: seq<Req>, bound: nat)
    requires Positive(reqs) && Descending(reqs) && forall i :: 0 <= i < |reqs| ==> reqs[i].inputLen >= bound
    ensures Heaped(Pack(limits, reqs), bound)
  {
    if reqs != [] {
      var n := |reqs| - 1;
      PackHeaped(limits, reqs[..n], reqs[n].inputLen);
      PlaceHeaped(limits, Pack(limits, reqs[..n]), reqs[n], reqs[n].inputLen);
    }
  }

  /** Settings for which being refused by the lightest partition means being refused by all. */
  predicate LightestDecides(ubs: nat, nUb: nat, genLen: nat) {
    nUb <= 1 || ubs <= 2 || genLen == 0 || (genLen == 1 && ubs == 3)
  }

  /** Another partition that could hold the request has fewer requests, and is hardly heavier. */
  lemma OtherHolds(limits: Limits, p: Packing, r: Req, j: nat)
    requires Refused(limits, p, r) && j < |p.open| && CanHold(limits, p.open[j], r)
    ensures var i := Lightest(p.open);
            Sum(p.open[j]) + Times(|p.open[j]| + 1, limits.genLen) < Sum(p.open[i])
              + Times(|p.open[i]| + 1, limits.genLen)
  {
    SumOfGrown(p.open[Lightest(p.open)], r);
    SumOfGrown(p.open[j], r);
  }

  lemma RefusedByAll(limits: Limits, p: Packing, r: Req, bound: nat)
    requires bound > 0 && Sound(limits, p) && Heaped(p, bound)
    requires LightestDecides(limits.ubs, limits.nUb, limits.genLen)
    ensures AbortedOnlyFull(limits, p, r)
  {
    if Refused(limits, p, r) {
      forall j | 0 <= j < |p.open|
        ensures !CanHold(limits, p.open[j], r)
      {
        if CanHold(limits, p.open[j], r) {
          OtherHolds(limits, p, r, j);
          NoOther(limits, p, j, bound);
          assert false;
        }
      }
    }
  }

  lemma NoOther(limits: Limits, p: Packing, j: nat, bound: nat)
    requires bound > 0 && Sound(limits, p) && Heaped(p, bound) && LightestDecides(limits.ubs, limits.nUb, limits.genLen)
    requires j < |p.open|
    ensures var i := Lightest(p.open);
            Sum(p.open[i]) + Times(|p.open[i]| + 1, limits.genLen) <= Sum(p.open[j])
              + Times(|p.open[j]| + 1, limits.genLen)
  {
    var i := Lightest(p.open);
    var a, b := p.open[i], p.open[j];
    assert OpenRight(limits, a) && OpenRight(limits, b);
    if limits.genLen == 0 {
      TimesCommute(|a| + 1, 0);
      TimesCommute(|b| + 1, 0);
    } else if |a| <= |b| {
      TimesGrows(|a| + 1, |b| + 1, limits.genLen);
    } else if b == [] {
      assert false;
    } else if limits.genLen == 1 && limits.ubs == 3 {
      TwoAgainstOne(p, i, j, bound);
      TimesIsProduct(2, 1);
      TimesIsProduct(3, 1);
    }
  }

  /** A partition of two requests is never as light as one of a single request and yet chosen before it. */
  lemma TwoAgainstOne(p: Packing, i: nat, j: nat, bound: nat)
    requires bound > 0 && Heaped(p, bound) && p.open != [] && i == Lightest(p.open) && j < |p.open|
    requires |p.open[i]| == 2 && |p.open[j]| == 1
    ensures Sum(p.open[i]) < Sum(p.open[j])
  {
    var a, b := p.open[i], p.open[j];
    SumOfTwo(a);
    SumOfOne(b);
    assert Sums(p.open)[i] == Sum(a) && Sums(p.open)[j] == Sum(b);
  }

  lemma SumOfOne(p: Partition)
    requires |p| == 1
    ensures Sum(p) == p[0].inputLen
  {
    assert Sum(p[..0]) == 0;
  }

  lemma SumOfTwo(p: Partition)
    requires |p| == 2
    ensures Sum(p) == p[0].inputLen + p[1].inputLen
  {
    SumOfOne(p[..1]);
  }

  /** With these settings no queue has a request aborted while an open partition could hold it. */
  lemma {:induction false} DecidesForAll(limits: Limits, reqs: seq<Req>)
    requires limits.ubs > 0 && LightestDecides(limits.ubs, limits.nUb, limits.genLen)
    requires Positive(reqs) && Descending(reqs)
    ensures AbortsOnlyFull(limits, reqs)
  {
    if reqs != [] {
      var n := |reqs| - 1;
      DecidesForAll(limits, reqs[..n]);
      PackSound(limits, reqs[..n]);
      PackHeaped(limits, reqs[..n], 1);
      RefusedByAll(limits, Pack(limits, reqs[..n]), reqs[n], 1);
    }
  }

  // The queue that shows the opposite for all other settings: as many long requests as leave one partition empty,
  // then requests of length 1, which all go to that partition until their generated tokens fill its line.

  function Item(m: nat, c: nat, i: nat): Req {
    var l := if i < m then c + 1 else 1;
    Req(i, l, l)
  }

  function Items(m: nat, c: nat, lo: nat, hi: nat): (s: seq<Req>)
    requires lo <= hi
    ensures |s| == hi - lo && forall t :: 0 <= t < |s| ==> s[t] == Item(m, c, lo + t)
  {
    seq(hi - lo, t requires 0 <= t < hi - lo => Item(m, c, lo + t))
  }

  /** Partition `i` after the first `k` of these requests. */
  function Part(m: nat, c: nat, k: nat, i: nat): Partition {
    if i < m then Items(m, c, i, if i < k then i + 1 else i)
    else Items(m, c, m, if k < m then m else k)
  }

  function Parts(m: nat, c: nat, k: nat): (ps: seq<Partition>)
    ensures |ps| == m + 1 && forall i :: 0 <= i < |ps| ==> ps[i] == Part(m, c, k, i)
  {
    seq(m + 1, i requires 0 <= i < m + 1 => Part(m, c, k, i))
  }

  lemma {:induction false} SumOfOnes(m: nat, c: nat, k: nat)
    requires m <= k
    ensures Sum(Items(m, c, m, k)) == k - m
  {
    if m < k {
      SumOfOnes(m, c, k - 1);
      assert Items(m, c, m, k)[..k - 1 - m] == Items(m, c, m, k - 1);
    }
  }

  lemma SumOfPart(m: nat, c: nat, k: nat, i: nat)
    requires i <= m
    ensures Sum(Part(m, c, k, i)) == if i < m then if i < k then c + 1 else 0 else if k < m then 0 else k - m
  {
    if i == m {
      SumOfOnes(m, c, if k < m then m else k);
    } else if i < k {
      SumOfOne(Part(m, c, k, i));
    }
  }

  /** The next request goes to the first empty partition, and all the short ones to the last. */
  lemma NextPart(m: nat, c: nat, k: nat)
    requires k <= m + c
    ensures Lightest(Parts(m, c, k)) == if k < m then k else m
  {
    var ps := Parts(m, c, k);
    forall i | 0 <= i <= m
      ensures Sums(ps)[i] == if i < m then if i < k then c + 1 else 0 else if k < m then 0 else k - m
    {
      SumOfPart(m, c, k, i);
    }
    assert k < m ==> Sums(ps)[k] == 0;
    assert k >= m ==> Sums(ps)[m] == k - m;
  }

  lemma NextParts(m: nat, c: nat, k: nat)
    ensures var i := if k < m then k else m;
            var q := Part(m, c, k, i) + [Item(m, c, k)];
            q == Part(m, c, k + 1, i) && Parts(m, c, k)[i := q] == Parts(m, c, k + 1)
  {
  }

  /** The line that a long request and a short one fill together. */
  function TightLine(c: nat, genLen: nat): nat {
    c + 2 + Times(2, genLen)
  }

  /** `c` requests of length 1 fit the line, and one more does not. */
  predicate Overruns(c: nat, genLen: nat) {
    c + Times(c, genLen) <= TightLine(c, genLen) < c + 1 + Times(c + 1, genLen)
  }

  lemma NextFits(m: nat, c: nat, k: nat, genLen: nat)
    requires k < m + c && Overruns(c, genLen)
    ensures var i := if k < m then k else m;
            var q := Part(m, c, k, i) + [Item(m, c, k)];
            |q| <= (if c < 1 then 1 else c) && Sum(q) + Times(|q|, genLen) <= TightLine(c, genLen)
  {
    var i := if k < m then k else m;
    SumOfPart(m, c, k, i);
    SumOfGrown(Part(m, c, k, i), Item(m, c, k));
    TimesGrows(|Part(m, c, k, i)| + 1, if k < m then 2 else c, genLen);
  }

  /** Settings and line for the queue of `m` long requests. */
  predicate Tight(limits: Limits, m: nat, c: nat) {
    && limits.nUb == m + 1 && 0 < c < limits.ubs
    && limits.line == TightLine(c, limits.genLen) && Overruns(c, limits.genLen)
  }

  lemma PlacePart(limits: Limits, m: nat, c: nat, k: nat)
    requires Tight(limits, m, c) && k < m + c
    ensures Place(limits, Packing(Parts(m, c, k), [], []), Item(m, c, k)) == Packing(Parts(m, c, k + 1), [], [])
  {
    NextPart(m, c, k);
    NextFits(m, c, k, limits.genLen);
    NextParts(m, c, k);
  }

  lemma {:induction false} PackedParts(limits: Limits, m: nat, c: nat, k: nat)
    requires Tight(limits, m, c) && k <= m + c
    ensures Pack(limits, Items(m, c, 0, k)) == Packing(Parts(m, c, k), [], [])
  {
    if k == 0 {
      assert Parts(m, c, 0) == seq<Partition>(m + 1, _ => []);
    } else {
      PackedParts(limits, m, c, k - 1);
      assert Items(m, c, 0, k)[..k - 1] == Items(m, c, 0, k - 1);
      PlacePart(limits, m, c, k - 1);
    }
  }

  lemma RefusedBy(limits: Limits, p: Packing, r: Req, i: nat)
    requires i < |p.open| && Lightest(p.open) == i && !CanHold(limits, p.open[i], r)
    ensures Refused(limits, p, r)
  {
  }

  lemma LastFull(limits: Limits, m: nat, c: nat)
    requires Tight(limits, m, c)
    ensures !CanHold(limits, Part(m, c, m + c, m), Item(m, c, m + c))
  {
    SumOfPart(m, c, m + c, m);
    SumOfGrown(Part(m, c, m + c, m), Item(m, c, m + c));
  }

  /** The next short request is refused, although the first partition has room for it. */
  lemma NextRefused(limits: Limits, m: nat, c: nat)
    requires Tight(limits, m, c)
    ensures Refused(limits, Packing(Parts(m, c, m + c), [], []), Item(m, c, m + c))
  {
    NextPart(m, c, m + c);
    LastFull(limits, m, c);
    RefusedBy(limits, Packing(Parts(m, c, m + c), [], []), Item(m, c, m + c), m);
  }

  lemma FirstHolds(limits: Limits, m: nat, c: nat)
    requires m > 0 && Tight(limits, m, c)
    ensures CanHold(limits, Part(m, c, m + c, 0), Item(m, c, m + c))
  {
    SumOfPart(m, c, m + c, 0);
    SumOfGrown(Part(m, c, m + c, 0), Item(m, c, m + c));
  }

  lemma AbortsNow(limits: Limits, reqs: seq<Req>, r: Req, j: nat)
    requires var p := Pack(limits, reqs);
             j < |p.open| && Refused(limits, p, r) && CanHold(limits, p.open[j], r)
    ensures !AbortsOnlyFull(limits, reqs + [r])
  {
    assert (reqs + [r])[..|reqs|] == reqs;
    assert !AbortedOnlyFull(limits, Pack(limits, reqs), r);
  }

  lemma {:induction false} AbortsStill(limits: Limits, reqs: seq<Req>, more: seq<Req>)
    requires !AbortsOnlyFull(limits, reqs)
    ensures !AbortsOnlyFull(limits, reqs + more)
  {
    if more == [] {
      assert reqs + more == reqs;
    } else {
      AbortsStill(limits, reqs, more[..|more| - 1]);
      assert (reqs + more)[..|reqs + more| - 1] == reqs + more[..|more| - 1];
    }
  }

  lemma ItemsOrdered(m: nat, c: nat, n: nat)
    ensures Positive(Items(m, c, 0, n)) && Descending(Items(m, c, 0, n))
  {
  }

  lemma ItemsAbort(limits: Limits, m: nat, c: nat)
    requires m > 0 && Tight(limits, m, c)
    ensures !AbortsOnlyFull(limits, Items(m, c, 0, m + c) + [Item(m, c, m + c)])
  {
    PackedParts(limits, m, c, m + c);
    NextRefused(limits, m, c);
    FirstHolds(limits, m, c);
    AbortsNow(limits, Items(m, c, 0, m + c), Item(m, c, m + c), 0);
  }

  lemma {:induction false} SortedAlready(reqs: seq<Req>)
    requires Descending(reqs)
    ensures Sorted(reqs) == reqs
  {
    if reqs != [] {
      SortedAlready(reqs[..|reqs| - 1]);
      LastOf(reqs);
    }
  }

  lemma SortedDishonest(limits: Limits, queue: seq<Req>)
    requires |queue| >= limits.ubs && Positive(queue) && Descending(queue) && !AbortsOnlyFull(limits, queue)
    ensures !HonestFor(limits, queue)
  {
    SortedAlready(queue);
  }

  lemma ItemsSplit(m: nat, c: nat, k: nat, n: nat)
    requires k < n
    ensures var queue := Items(m, c, 0, k) + [Item(m, c, k)] + Items(m, c, k + 1, n);
            |queue| == n && Positive(queue) && Descending(queue)
  {
    assert Items(m, c, 0, k) + [Item(m, c, k)] + Items(m, c, k + 1, n) == Items(m, c, 0, n);
    ItemsOrdered(m, c, n);
  }

  lemma ItemsDishonest(limits: Limits, m: nat, c: nat) returns (queue: seq<Req>)
    requires m > 0 && Tight(limits, m, c)
    ensures !HonestFor(limits, queue)
  {
    var k := m + c;
    queue := Items(m, c, 0, k) + [Item(m, c, k)] + Items(m, c, k + 1, k + limits.ubs);
    ItemsSplit(m, c, k, k + limits.ubs);
    ItemsAbort(limits, m, c);
    AbortsStill(limits, Items(m, c, 0, k) + [Item(m, c, k)], Items(m, c, k + 1, k + limits.ubs));
    SortedDishonest(limits, queue);
  }

  lemma SomeOverrun(ubs: nat, genLen: nat) returns (c: nat)
    requires ubs > 2 && genLen > 0 && !(genLen == 1 && ubs == 3)
    ensures 0 < c < ubs && Overruns(c, genLen)
  {
    c := if genLen == 1 then 3 else 2;
    assert Times(3, genLen) == Times(2, genLen) + genLen && Times(4, 1) == Times(3, 1) + 1
      && Times(2, 1) == Times(1, 1) + 1;
  }

  lemma HonestForAll(limits: Limits, queue: seq<Req>)
    requires limits.ubs > 0 && LightestDecides(limits.ubs, limits.nUb, limits.genLen)
    ensures HonestFor(limits, queue)
  {
    if Positive(queue) {
      SortedPositive(queue);
      DecidesForAll(limits, Sorted(queue));
    }
  }

  lemma SomeDishonest(ubs: nat, nUb: nat, genLen: nat) returns (limits: Limits, queue: seq<Req>)
    requires !LightestDecides(ubs, nUb, genLen)
    ensures limits.ubs == ubs && limits.nUb == nUb && limits.genLen == genLen && !HonestFor(limits, queue)
  {
    var c := SomeOverrun(ubs, genLen);
    limits := Limits(ubs, nUb, genLen, TightLine(c, genLen));
    queue := ItemsDishonest(limits, nUb - 1, c);
  }

  /**
   Trying the lightest partition alone is enough, on every queue and for every length of a line, exactly with at most
   one micro-batch, at most two requests in each, no token to generate, or one token and three requests.
  */
  lemma AbortsOnlyFullIff(ubs: nat, nUb: nat, genLen: nat)
    requires ubs > 0
    ensures (forall line: nat, queue: seq<Req> :: HonestFor(Limits(ubs, nUb, genLen, line), queue))
            <==> LightestDecides(ubs, nUb, genLen)
  {
    if LightestDecides(ubs, nUb, genLen) {
      forall line: nat, queue: seq<Req>
        ensures HonestFor(Limits(ubs, nUb, genLen, line), queue)
      {
        HonestForAll(Limits(ubs, nUb, genLen, line), queue);
      }
    } else {
      var limits, queue := SomeDishonest(ubs, nUb, genLen);
      assert limits == Limits(ubs, nUb, genLen, limits.line);
    }
  }

  lemma PackRefused(limits: Limits, reqs: seq<Req>, r: Req)
    requires Refused(limits, Pack(limits, reqs), r)
    ensures var p := Pack(limits, reqs); Pack(limits, reqs + [r]) == p.(aborted := p.aborted + [r])
  {
    assert (reqs + [r])[..|reqs|] == reqs;
  }

  lemma NextAborted(limits: Limits, m: nat, c: nat)
    requires Tight(limits, m, c)
    ensures Pack(limits, Items(m, c, 0, m + c) + [Item(m, c, m + c)]) ==
            Packing(Parts(m, c, m + c), [], [Item(m, c, m + c)])
  {
    PackedParts(limits, m, c, m + c);
    NextRefused(limits, m, c);
    PackRefused(limits, Items(m, c, 0, m + c), Item(m, c, m + c));
  }

  lemma FiveThrice()
    ensures Overruns(2, 5) && TightLine(2, 5) == 14
  {
    TimesIsProduct(2, 5);
    TimesIsProduct(3, 5);
  }

  lemma FourItems(m: nat, c: nat)
    requires m == 1 && c == 2
    ensures Items(m, c, 0, m + c) + [Item(m, c, m + c)] == [Req(0, 3, 3), Req(1, 1, 1), Req(2, 1, 1), Req(3, 1, 1)]
    ensures Parts(m, c, m + c) == [[Req(0, 3, 3)], [Req(1, 1, 1), Req(2, 1, 1)]]
  {
    assert Part(m, c, m + c, 0) == [Item(m, c, 0)] && Part(m, c, m + c, 1) == [Item(m, c, 1), Item(m, c, 2)];
  }

  lemma FourthAborted(limits: Limits, queue: seq<Req>, m: nat, c: nat)
    requires limits == Limits(3, 2, 5, 14) && m == 1 && c == 2
    requires queue == [Req(0, 3, 3), Req(1, 1, 1), Req(2, 1, 1), Req(3, 1, 1)]
    ensures Pack(limits, queue) == Packing([[queue[0]], [queue[1], queue[2]]], [], [queue[3]])
    ensures CanHold(limits, [queue[0]], queue[3])
  {
    FiveThrice();
    NextAborted(limits, m, c);
    FirstHolds(limits, m, c);
    FourItems(m, c);
    assert Parts(m, c, m + c)[0] == Part(m, c, m + c, 0);
  }

  lemma FourSorted(queue: seq<Req>, m: nat, c: nat)
    requires queue == [Req(0, 3, 3), Req(1, 1, 1), Req(2, 1, 1), Req(3, 1, 1)] && m == 1 && c == 2
    ensures Sorted(queue) == queue
  {
    FourItems(m, c);
    assert queue == Items(m, c, 0, 4);
    ItemsOrdered(m, c, 4);
    SortedAlready(queue);
  }

  /**
   For instance, three requests in each of two micro-batches, five tokens to generate and lines of 14 tokens: the
   fourth request is aborted, and the first partition would hold it.
  */
  lemma RefusedWithRoom(limits: Limits, queue: seq<Req>)
    requires limits == Limits(3, 2, 5, 14)
    requires queue == [Req(0, 3, 3), Req(1, 1, 1), Req(2, 1, 1), Req(3, 1, 1)]
    ensures var p := Pack(limits, Sorted(queue));
            && p.open == [[queue[0]], [queue[1], queue[2]]] && p.aborted == [queue[3]]
            && CanHold(limits, p.open[0], queue[3])
  {
    FourSorted(queue, 1, 2);
    FourthAborted(limits, queue, 1, 2);
  }
}
