/**
 The search around the linear program: how many micro-batches fit, and which batch is served fastest.
 The loops see the program only through what it answers for every batch.
*/
module PolicySearch {
  import opened Basics
  import opened Optimizer
  import opened CostModel

  datatype Policy = Policy(ubs: nat, nUb: nat, wg: real, wc: real, cg: real, cc: real, eg: nat)

  function PolicyOf(gbs: nat, nb: nat, x: Lp, experts: nat): Policy {
    Policy(gbs, nb, x.wg, x.wc, x.cg, x.cc, experts)
  }

  // ------------------------------------------------------------------------------ what the loops rely on

  /** For every batch the best throughput, if it fits; and which policies are optimal. */
  datatype Oracle = Oracle(value: (nat, nat) -> Option<real>, optimal: Policy -> bool)

  /** The policy stands for an optimal solution of the program. */
  ghost predicate Optimal(k: Costs, experts: nat, p: Policy)
    requires Sane(k)
  {
    exists x :: && Constraints(k, p.ubs, p.nUb, x) && p == PolicyOf(p.ubs, p.nUb, x, experts)
                && forall y :: Constraints(k, p.ubs, p.nUb, y) ==> x.T <= y.T
  }

  ghost predicate Describes(f: Oracle, k: Costs, experts: nat)
    requires Sane(k)
  {
    && (forall g: nat, n: nat {:trigger Possible(k, g, n)} :: g > 0 && n > 0 ==>
          f.value(g, n) == if Possible(k, g, n) then Some(Best(k, g, n)) else None)
    && (forall p {:trigger Optimal(k, experts, p)} :: f.optimal(p) == Optimal(k, experts, p))
  }

  ghost predicate FewerFit(f: Oracle, g: nat, n: nat, g1: nat, n1: nat) {
    0 < g1 <= g && 0 < n1 <= n && f.value(g, n).Some? ==> f.value(g1, n1).Some?
  }

  /** Fewer and smaller micro-batches fit as well. */
  ghost predicate Antitone(f: Oracle) {
    forall g: nat, n: nat, g1: nat, n1: nat :: FewerFit(f, g, n, g1, n1)
  }

  ghost predicate Bounded(f: Oracle, limit: nat) {
    forall g: nat, n: nat {:trigger f.value(g, n)} :: 0 < g && 0 < n && f.value(g, n).Some? ==>
      g < limit && n < limit && f.value(g, n).value > 0.0
  }

  ghost predicate NoRecovery(f: Oracle, g: nat, i: nat, j: nat, n: nat) {
    0 < g && 0 < i < j <= n && f.value(g, i).Some? && f.value(g, j).Some? && f.value(g, n).Some? ==>
      f.value(g, j).value < f.value(g, i).value ==> f.value(g, n).value < f.value(g, i).value
  }

  /** Once throughput falls with a larger batch, it never recovers. */
  ghost predicate OnePeaked(f: Oracle) {
    forall g: nat, i: nat, j: nat, n: nat :: NoRecovery(f, g, i, j, n)
  }

  /** The linear program behaves this way. */
  lemma ProgramIsRegular(k: Costs, experts: nat) returns (f: Oracle)
    requires Sane(k)
    ensures Describes(f, k, experts) && Antitone(f) && Bounded(f, Limit(k)) && OnePeaked(f)
  {
    f := Oracle((g: nat, n: nat) => if g > 0 && n > 0 && Possible(k, g, n) then Some(Best(k, g, n)) else None,
                (p: Policy) => Optimal(k, experts, p));
    forall g: nat, n: nat, g1: nat, n1: nat
      ensures FewerFit(f, g, n, g1, n1)
    {
      if 0 < g1 <= g && 0 < n1 <= n && f.value(g, n).Some? {
        FewerArePossible(k, g, n, g1, n1);
      }
    }
    forall g: nat, n: nat | 0 < g && 0 < n && f.value(g, n).Some?
      ensures g < Limit(k) && n < Limit(k) && f.value(g, n).value > 0.0
    {
      BelowLimit(k, g, n);
      BestIsPositive(k, g, n);
    }
    forall g: nat, i: nat, j: nat, n: nat
      ensures NoRecovery(f, g, i, j, n)
    {
      if 0 < g && 0 < i < j <= n && f.value(g, i).Some? && f.value(g, j).Some? && f.value(g, n).Some? {
        if f.value(g, j).value < f.value(g, i).value {
          OnePeak(k, g, i, j, n);
        }
      }
    }
  }

  /** Only the status of the program. */
  method HasSolution(k: Costs, gbs: nat, nb: nat, experts: nat, ghost f: Oracle) returns (ok: bool)
    requires Sane(k) && gbs > 0 && nb > 0 && Describes(f, k, experts)
    ensures ok <==> f.value(gbs, nb).Some?
  {
    var x := SolveLp(k, gbs, nb);
    ok := x.Some?;
  }

  /** The policy and the throughput that the program finds for one batch. */
  method Run(k: Costs, gbs: nat, nb: nat, experts: nat, ghost f: Oracle) returns (p: Policy, throughput: real)
    requires Sane(k) && gbs > 0 && nb > 0 && Describes(f, k, experts) && f.value(gbs, nb).Some?
    ensures p.ubs == gbs && p.nUb == nb && f.optimal(p) && f.value(gbs, nb) == Some(throughput)
  {
    assert Possible(k, gbs, nb);
    var x := SolveLp(k, gbs, nb);
    throughput := ThroughputOf(k, gbs, nb, x.value.T);
    p := PolicyOf(gbs, nb, x.value, experts);
    assert Optimal(k, experts, p);
  }

  /** `n` is the largest number of micro-batches that fit, 0 if none do. */
  ghost predicate IsLargest(f: Oracle, gbs: nat, n: nat) {
    forall i: nat {:trigger f.value(gbs, i)} :: i > 0 ==> (f.value(gbs, i).Some? <==> i <= n)
  }

  lemma LargestAt(f: Oracle, gbs: nat, n: nat)
    requires gbs > 0 && Antitone(f) && (n > 0 ==> f.value(gbs, n).Some?) && f.value(gbs, n + 1).None?
    ensures IsLargest(f, gbs, n)
  {
    forall i: nat | i > 0
      ensures f.value(gbs, i).Some? <==> i <= n
    {
      assert FewerFit(f, gbs, n, gbs, i) && FewerFit(f, gbs, i, gbs, n + 1);
    }
  }

  /** The number of micro-batches that fit: doubling, then bisection. */
  method GetNbUb(k: Costs, gbs: nat, experts: nat, ghost f: Oracle) returns (r: nat)
    requires Sane(k) && gbs > 0 && Describes(f, k, experts) && Antitone(f) && Bounded(f, Limit(k))
    ensures IsLargest(f, gbs, r)
  {
    var nb := 1;
    while true
      invariant nb >= 1 && (nb > 1 ==> f.value(gbs, nb / 2).Some?)
      decreases Limit(k) - nb
    {
      var ok := HasSolution(k, gbs, nb, experts, f);
      if !ok {
        break;
      }
      nb := nb * 2;
    }
    var left, right := if nb / 2 > 1 then nb / 2 else 1, nb;
    assert FewerFit(f, gbs, left, gbs, left - 1);
    while left < right
      invariant 1 <= left <= right && f.value(gbs, right).None? && (left > 1 ==> f.value(gbs, left - 1).Some?)
      decreases right - left
    {
      var mid := (left + right) / 2;
      var ok := HasSolution(k, gbs, mid, experts, f);
      if ok {
        left := mid + 1;
      } else {
        right := mid;
      }
    }
    LargestAt(f, gbs, left - 1);
    r := left - 1;
  }

  // ------------------------------------------------------------------------------------------ the best policy

  /** In the order of the search. */
  predicate NoLater(gbs1: nat, nb1: nat, gbs2: nat, nb2: nat) {
    gbs1 < gbs2 || (gbs1 == gbs2 && nb1 <= nb2)
  }

  /** A linear order: of two different batches exactly one is later. */
  lemma SearchOrder(gbs1: nat, nb1: nat, gbs2: nat, nb2: nat)
    ensures NoLater(gbs1, nb1, gbs2, nb2) || NoLater(gbs2, nb2, gbs1, nb1)
    ensures NoLater(gbs1, nb1, gbs2, nb2) && NoLater(gbs2, nb2, gbs1, nb1) ==> gbs1 == gbs2 && nb1 == nb2
  {
  }

  /** A batch that fits is no faster than the best; of those as fast as the best, none comes later in the search. */
  ghost predicate Covers(f: Oracle, gbs: nat, nb: nat, best: Option<Policy>, max: real) {
    f.value(gbs, nb).Some? ==>
      && f.value(gbs, nb).value <= max
      && (f.value(gbs, nb).value == max ==> best.Some? && NoLater(gbs, nb, best.value.ubs, best.value.nUb))
  }

  ghost predicate CoversRange(f: Oracle, gbs: nat, to: nat, best: Option<Policy>, max: real) {
    forall nb: nat :: 0 < nb < to ==> Covers(f, gbs, nb, best, max)
  }

  ghost predicate CoversAll(f: Oracle, gbs: nat, best: Option<Policy>, max: real) {
    forall nb: nat :: 0 < nb ==> Covers(f, gbs, nb, best, max)
  }

  ghost predicate Sound(f: Oracle, best: Option<Policy>, max: real) {
    if best.None? then max == 0.0
    else
      && best.value.ubs > 0 && best.value.nUb > 0 && f.optimal(best.value)
      && f.value(best.value.ubs, best.value.nUb) == Some(max)
  }

  /** Of two policies the later, unless it is slower. */
  function Better(policy1: Option<Policy>, throughput1: real, policy2: Policy,
                  throughput2: real): (Option<Policy>, real) {
    if throughput2 >= throughput1 then (Some(policy2), throughput2) else (policy1, throughput1)
  }

  /** What a step of the search may do: keep the policy, or replace it by a later, not slower one for this size. */
  predicate Improves(best0: Option<Policy>, max0: real, best: Option<Policy>, max: real, gbs: nat, nb: nat) {
    || (best == best0 && max == max0)
    || (best.Some? && max >= max0 && best.value.ubs == gbs && nb <= best.value.nUb)
  }

  /** Keeping the better of the best so far and a new policy. */
  lemma BetterKeeps(f: Oracle, best0: Option<Policy>, max0: real, p: Policy, throughput: real, best: Option<Policy>,
                    max: real)
    requires CoversRange(f, p.ubs, p.nUb, best0, max0) && f.value(p.ubs, p.nUb) == Some(throughput)
    requires (best, max) == Better(best0, max0, p, throughput)
    ensures CoversRange(f, p.ubs, p.nUb + 1, best, max)
  {
    forall n: nat | 0 < n < p.nUb + 1
      ensures Covers(f, p.ubs, n, best, max)
    {
      assert n < p.nUb ==> Covers(f, p.ubs, n, best0, max0);
    }
  }

  /** What follows a fall in throughput cannot matter. */
  lemma RestCovered(f: Oracle, gbs: nat, nb: nat, best: Option<Policy>, max: real)
    requires OnePeaked(f) && 0 < gbs && 0 < nb && f.value(gbs, nb).Some? && f.value(gbs, nb + 1).Some?
    requires f.value(gbs, nb + 1).value < f.value(gbs, nb).value && CoversRange(f, gbs, nb + 1, best, max)
    ensures CoversAll(f, gbs, best, max)
  {
    forall n: nat | 0 < n
      ensures Covers(f, gbs, n, best, max)
    {
      assert Covers(f, gbs, nb, best, max);
      assert n <= nb ==> Covers(f, gbs, n, best, max);
      assert NoRecovery(f, gbs, nb, nb + 1, n);
    }
  }

  lemma BeyondLargest(f: Oracle, gbs: nat, n: nat, best: Option<Policy>, max: real)
    requires IsLargest(f, gbs, n) && CoversRange(f, gbs, n + 1, best, max)
    ensures CoversAll(f, gbs, best, max)
  {
    forall i: nat | 0 < i
      ensures Covers(f, gbs, i, best, max)
    {
      assert i <= n ==> Covers(f, gbs, i, best, max);
    }
  }

  /** All batch counts for one micro-batch size, up to the first fall in throughput. */
  method Scan(k: Costs, gbs: nat, nbUb: nat, experts: nat, best0: Option<Policy>, max0: real, ghost f: Oracle)
    returns (best: Option<Policy>, max: real)
    requires Sane(k) && gbs > 0 && Describes(f, k, experts) && Bounded(f, Limit(k)) && OnePeaked(f)
    requires IsLargest(f, gbs, nbUb) && Sound(f, best0, max0)
    ensures Sound(f, best, max) && (nbUb > 0 ==> best.Some?)
    ensures CoversAll(f, gbs, best, max) && Improves(best0, max0, best, max, gbs, 1)
  {
    best, max := best0, max0;
    var prev := 0.0;
    for nb := 1 to nbUb + 1
      invariant Sound(f, best, max) && (nb > 1 ==> best.Some?)
      invariant CoversRange(f, gbs, nb, best, max) && Improves(best0, max0, best, max, gbs, 1)
      invariant if nb == 1 then prev == 0.0 else f.value(gbs, nb - 1) == Some(prev)
    {
      var policy, throughput := Run(k, gbs, nb, experts, f);
      if throughput < prev {
        RestCovered(f, gbs, nb - 1, best, max);
        return;
      }
      prev := throughput;
      var r := Better(best, max, policy, throughput);
      BetterKeeps(f, best, max, policy, throughput, r.0, r.1);
      best, max := r.0, r.1;
    }
    BeyondLargest(f, gbs, nbUb, best, max);
  }

  // ---------------------------------------------------------------------------------------- the whole search

  /** What the caller may fix: the micro-batch size and the number of micro-batches. */
  datatype Args = Args(gbs: Option<nat>, numGb: Option<nat>)

  /** The micro-batch sizes that are probed: 1, 2, 3, 4, 36, 68 and so on. */
  predicate OnGrid(gbs: nat) {
    1 <= gbs <= 4 || (gbs > 4 && gbs % 32 == 4)
  }

  predicate Candidate(args: Args, gbs: nat, nb: nat) {
    && nb > 0 && (args.numGb.Some? ==> nb == args.numGb.value)
    && if args.gbs.Some? then gbs == args.gbs.value else OnGrid(gbs)
  }

  ghost predicate CoversBelow(f: Oracle, args: Args, to: nat, best: Option<Policy>, max: real) {
    forall g: nat, n: nat :: g < to && Candidate(args, g, n) ==> Covers(f, g, n, best, max)
  }

  ghost predicate CoversCandidates(f: Oracle, args: Args, best: Option<Policy>, max: real) {
    forall g: nat, n: nat :: Candidate(args, g, n) ==> Covers(f, g, n, best, max)
  }

  ghost predicate CoversGiven(f: Oracle, gbs: nat, numGb: Option<nat>, best: Option<Policy>, max: real) {
    forall n: nat :: 0 < n && (numGb.Some? ==> n == numGb.value) ==> Covers(f, gbs, n, best, max)
  }

  /** One micro-batch size: with the number of micro-batches given, or for all of them. */
  method Probe(k: Costs, gbs: nat, numGb: Option<nat>, experts: nat, best0: Option<Policy>, max0: real, ghost f: Oracle)
    returns (best: Option<Policy>, max: real, go: bool)
    requires Sane(k) && gbs > 0 && (numGb.Some? ==> numGb.value > 0) && Describes(f, k, experts)
    requires Antitone(f) && Bounded(f, Limit(k)) && OnePeaked(f) && Sound(f, best0, max0)
    ensures Sound(f, best, max) && Improves(best0, max0, best, max, gbs, 1) && CoversGiven(f, gbs, numGb, best, max)
    ensures best != best0 ==> best.Some? && best.value.ubs == gbs && best.value.nUb > 0 && (numGb.Some? ==>
            best.value.nUb == numGb.value)
    ensures if go then gbs < Limit(k) && best.Some?
            else best == best0 && max == max0 && f.value(gbs, numGb.GetOr(1)).None?
  {
    if numGb.Some? {
      var ok := HasSolution(k, gbs, numGb.value, experts, f);
      if !ok {
        return best0, max0, false;
      }
      var policy, throughput := Run(k, gbs, numGb.value, experts, f);
      var r := Better(best0, max0, policy, throughput);
      return r.0, r.1, true;
    }
    var nbUb := GetNbUb(k, gbs, experts, f);
    assert f.value(gbs, 1).Some? <==> 1 <= nbUb;
    if nbUb == 0 {
      NoneFit(f, gbs, best0, max0);
      return best0, max0, false;
    }
    best, max := Scan(k, gbs, nbUb, experts, best0, max0, f);
    go := true;
  }

  lemma NoneFit(f: Oracle, gbs: nat, best: Option<Policy>, max: real)
    requires IsLargest(f, gbs, 0)
    ensures CoversAll(f, gbs, best, max)
  {
    BeyondLargest(f, gbs, 0, best, max);
  }

  function NextSize(gbs: nat): (r: nat)
    requires OnGrid(gbs)
    ensures OnGrid(r) && r > gbs && forall g :: gbs < g < r ==> !OnGrid(g)
  {
    if gbs < 4 then gbs + 1 else gbs + 32
  }

  /** The sizes that are probed, one by one: 1, 2 and 3, and from 4 on every 32nd. */
  lemma GridIs(gbs: nat)
    ensures OnGrid(gbs) <==> 1 <= gbs <= 3 || exists j: nat :: gbs == Times(j, 32) + 4
  {
    if OnGrid(gbs) && gbs >= 4 {
      var j := (gbs - 4) / 32;
      TimesIsProduct(j, 32);
      assert gbs == Times(j, 32) + 4;
    }
    forall j: nat
      ensures Times(j, 32) == j * 32
    {
      TimesIsProduct(j, 32);
    }
  }

  lemma CoveredSoFar(f: Oracle, args: Args, gbs: nat, best0: Option<Policy>, max0: real, best: Option<Policy>,
                     max: real, next: nat)
    requires CoversBelow(f, args, gbs, best0, max0) && CoversGiven(f, gbs, args.numGb, best, max)
    requires Improves(best0, max0, best, max, gbs, 1) && args.gbs.None? && OnGrid(gbs) && next == NextSize(gbs)
    ensures CoversBelow(f, args, next, best, max)
  {
    forall g: nat, n: nat | g < next && Candidate(args, g, n)
      ensures Covers(f, g, n, best, max)
    {
      assert g < gbs ==> Covers(f, g, n, best0, max0);
      assert g == gbs ==> Covers(f, g, n, best, max);
    }
  }

  /** After the first size that fits nowhere, no larger one does. */
  lemma NoLargerSize(f: Oracle, args: Args, gbs: nat, best: Option<Policy>, max: real)
    requires Antitone(f) && gbs > 0 && (args.numGb.Some? ==> args.numGb.value > 0) && (args.gbs.Some? ==>
             args.gbs.value == gbs)
    requires f.value(gbs, args.numGb.GetOr(1)).None? && CoversBelow(f, args, gbs, best, max)
    ensures CoversCandidates(f, args, best, max)
  {
    forall g: nat, n: nat | Candidate(args, g, n)
      ensures Covers(f, g, n, best, max)
    {
      assert g < gbs ==> Covers(f, g, n, best, max);
      assert FewerFit(f, g, n, gbs, args.numGb.GetOr(1));
    }
  }

  /** The search with whatever the caller fixes. */
  method Search(k: Costs, experts: nat, args: Args, ghost f: Oracle) returns (best: Option<Policy>, max: real)
    requires Sane(k) && (args.gbs.Some? ==> args.gbs.value > 0) && (args.numGb.Some? ==> args.numGb.value > 0)
    requires Describes(f, k, experts) && Antitone(f) && Bounded(f, Limit(k)) && OnePeaked(f)
    ensures Sound(f, best, max) && CoversCandidates(f, args, best, max)
    ensures best.Some? ==> Candidate(args, best.value.ubs, best.value.nUb)
  {
    best, max := None, 0.0;
    var gbs := 1;
    while true
      invariant gbs > 0 && (args.gbs.None? ==> OnGrid(gbs)) && (args.gbs.Some? ==> gbs == 1)
      invariant Sound(f, best, max) && CoversBelow(f, args, gbs, best, max)
      invariant best.Some? ==> Candidate(args, best.value.ubs, best.value.nUb)
      decreases Limit(k) - gbs
    {
      if args.gbs.Some? {
        NothingBelow(f, args, best, max);
        gbs := args.gbs.value;
      }
      ghost var best0, max0 := best, max;
      var go;
      best, max, go := Probe(k, gbs, args.numGb, experts, best, max, f);
      if !go {
        NoLargerSize(f, args, gbs, best, max);
        return;
      }
      if args.gbs.Some? {
        OnlySize(f, args, best, max);
        return;
      }
      ghost var probed := gbs;
      gbs := NextSize(gbs);
      CoveredSoFar(f, args, probed, best0, max0, best, max, gbs);
    }
  }

  lemma NothingBelow(f: Oracle, args: Args, best: Option<Policy>, max: real)
    requires args.gbs.Some?
    ensures CoversBelow(f, args, args.gbs.value, best, max)
  {
  }

  lemma OnlySize(f: Oracle, args: Args, best: Option<Policy>, max: real)
    requires args.gbs.Some? && CoversGiven(f, args.gbs.value, args.numGb, best, max)
    ensures CoversCandidates(f, args, best, max)
  {
    forall g: nat, n: nat | Candidate(args, g, n)
      ensures Covers(f, g, n, best, max)
    {
    }
  }

  /** `Best` is what no solution exceeds. */
  lemma NoneIsFaster(k: Costs, gbs: nat, nb: nat, y: Lp)
    requires Sane(k) && gbs > 0 && nb > 0 && Constraints(k, gbs, nb, y)
    ensures Possible(k, gbs, nb) && y.T > 0.0 && ThroughputOf(k, gbs, nb, y.T) <= Best(k, gbs, nb)
  {
    BestTimeIsBest(k, gbs, nb, y);
    TimeIsPositive(k, gbs, nb);
    Faster(k, gbs, nb, y.T, nb, BestTime(k, gbs, nb));
    Grows(nb as real, BestTime(k, gbs, nb), y.T);
  }

  /**
   What a policy stands for, field by field: the shares of a solution of the program as written that takes no longer
   than any other, with all weights on one side or the other, all caches on the CPU, and `max` tokens per second.
  */
  ghost predicate PolicyRight(c: Config, p: Policy, max: real)
    requires Sensible(c)
  {
    && p.ubs > 0 && p.nUb > 0
    && p.wg >= 0.0 && p.wc >= 0.0 && p.wg + p.wc == 1.0 && p.cg == 0.0 && p.cc == 1.0 && p.eg == c.nExperts
    && Fits(CostsOf(c), p.ubs as real, Sequences(p.ubs, p.nUb), p.wg)
    && var T := Time(CostsOf(c), p.ubs as real, p.nUb as real, p.wg);
    && (exists x :: Program(c, p.ubs, p.nUb, x) && x.wg == p.wg && x.T == T)
    && (forall y :: Program(c, p.ubs, p.nUb, y) ==> T <= y.T)
    && Mul(max, TotalTime(c.n as real, c.l as real, T)) == Tokens(p.ubs, p.nUb, c.n as real)
  }

  /** The least solution takes exactly the time that its share needs, the shortest of all. */
  lemma LeastTime(k: Costs, gbs: nat, nb: nat, x: Lp)
    requires Sane(k) && gbs > 0 && nb > 0 && Possible(k, gbs, nb) && Constraints(k, gbs, nb, x)
    requires forall y :: Constraints(k, gbs, nb, y) ==> x.T <= y.T
    ensures Fits(k, gbs as real, Sequences(gbs, nb), x.wg)
    ensures x.T == Time(k, gbs as real, nb as real, x.wg) == BestTime(k, gbs, nb)
  {
    var g, b, m := gbs as real, Sequences(gbs, nb), nb as real;
    SolutionIsShare(k, g, b, m, x);
    assert Constraints(k, gbs, nb, Solution(k, g, b, m, x.wg));
    assert Constraints(k, gbs, nb, BestSolution(k, gbs, nb));
    BestTimeIsBest(k, gbs, nb, x);
  }

  lemma StepsAndLayers(c: Config)
    requires Sensible(c)
    ensures CostsOf(c).tokens == c.n as real && CostsOf(c).layers == c.l as real
  {
  }

  lemma TokensOfBest(k: Costs, gbs: nat, nb: nat, T: real, max: real)
    requires Sane(k) && gbs > 0 && nb > 0 && Possible(k, gbs, nb)
    requires T == BestTime(k, gbs, nb) && max == Best(k, gbs, nb)
    ensures Mul(max, TotalTime(k.tokens, k.layers, T)) == Tokens(gbs, nb, k.tokens)
  {
    TimeIsPositive(k, gbs, nb);
    TokensOverTime(k, gbs, nb, T);
  }

  lemma PolicyIsRight(c: Config, p: Policy, max: real)
    requires Sensible(c) && p.ubs > 0 && p.nUb > 0 && Optimal(CostsOf(c), c.nExperts, p)
    requires Possible(CostsOf(c), p.ubs, p.nUb) && max == Best(CostsOf(c), p.ubs, p.nUb)
    ensures PolicyRight(c, p, max)
  {
    var k := CostsOf(c);
    var x :| && Constraints(k, p.ubs, p.nUb, x) && p == PolicyOf(p.ubs, p.nUb, x, c.nExperts)
             && forall y :: Constraints(k, p.ubs, p.nUb, y) ==> x.T <= y.T;
    LeastTime(k, p.ubs, p.nUb, x);
    ProgramIs(c, p.ubs, p.nUb, x);
    forall y | Program(c, p.ubs, p.nUb, y)
      ensures x.T <= y.T
    {
      ProgramIs(c, p.ubs, p.nUb, y);
    }
    TokensOfBest(k, p.ubs, p.nUb, x.T, max);
    StepsAndLayers(c);
  }

  lemma NoMoreTokens(k: Costs, g: nat, n: nat, y: Lp, max: real)
    requires Sane(k) && g > 0 && n > 0 && Constraints(k, g, n, y)
    requires Possible(k, g, n) ==> Best(k, g, n) <= max
    ensures y.T > 0.0 && Tokens(g, n, k.tokens) <= Mul(max, TotalTime(k.tokens, k.layers, y.T))
  {
    NoneIsFaster(k, g, n, y);
    TokensOverTime(k, g, n, y.T);
    AtMost(ThroughputOf(k, g, n, y.T), max, TotalTime(k.tokens, k.layers, y.T), Tokens(g, n, k.tokens));
  }

  lemma AtMost(a: real, max: real, t: real, s: real)
    requires t >= 0.0 && a <= max && Mul(a, t) == s
    ensures s <= Mul(max, t)
  {
    Grows(t, a, max);
  }

  /** No solution of the program as written yields more tokens per second than `max`. */
  lemma NotFaster(c: Config, g: nat, n: nat, y: Lp, max: real)
    requires Sensible(c) && g > 0 && n > 0 && Program(c, g, n, y)
    requires Possible(CostsOf(c), g, n) ==> Best(CostsOf(c), g, n) <= max
    ensures Possible(CostsOf(c), g, n) && y.T > 0.0
    ensures Tokens(g, n, c.n as real) <= Mul(max, TotalTime(c.n as real, c.l as real, y.T))
  {
    ProgramIs(c, g, n, y);
    NoneIsFaster(CostsOf(c), g, n, y);
    NoMoreTokens(CostsOf(c), g, n, y, max);
    StepsAndLayers(c);
  }

  /**
   The policy search: an optimal solution for a candidate batch that no solution for any candidate batch
   exceeds; among equally fast batches the last one in the order of the search.
  */
  method Solve(c: Config, args: Args) returns (best: Option<Policy>, max: real)
    requires Sensible(c) && (args.gbs.Some? ==> args.gbs.value > 0) && (args.numGb.Some? ==> args.numGb.value > 0)
    ensures best.Some? ==> var p := best.value;
              && Candidate(args, p.ubs, p.nUb) && Optimal(CostsOf(c), c.nExperts, p)
              && p.ubs > 0 && p.nUb > 0 && Possible(CostsOf(c), p.ubs, p.nUb) && max == Best(CostsOf(c), p.ubs, p.nUb)
    ensures best.Some? ==> PolicyRight(c, best.value, max)
    ensures forall g: nat, n: nat, y: Lp :: g > 0 && Candidate(args, g, n) && Program(c, g, n, y) ==>
              best.Some? && y.T > 0.0 && Tokens(g, n, c.n as real) <= Mul(max, TotalTime(c.n as real, c.l as real, y.T))
    ensures forall g: nat, n: nat ::
              (g > 0 && Candidate(args, g, n) && Possible(CostsOf(c), g, n) && Best(CostsOf(c), g, n) == max) ==>
              best.Some? && NoLater(g, n, best.value.ubs, best.value.nUb)
  {
    var k := CostsOf(c);
    ghost var f := ProgramIsRegular(k, c.nExperts);
    best, max := Search(k, c.nExperts, args, f);
    forall g: nat, n: nat | g > 0 && Candidate(args, g, n) && Possible(k, g, n)
      ensures best.Some? && Best(k, g, n) <= max && (Best(k, g, n) == max ==>
              NoLater(g, n, best.value.ubs, best.value.nUb))
    {
      assert Covers(f, g, n, best, max);
      BestIsPositive(k, g, n);
    }
    forall g: nat, n: nat, y: Lp | g > 0 && Candidate(args, g, n) && Program(c, g, n, y)
      ensures best.Some? && y.T > 0.0 && Tokens(g, n, c.n as real) <= Mul(max, TotalTime(c.n as real, c.l as real, y.T))
    {
      NotFaster(c, g, n, y, max);
    }
    assert best.Some? ==> Optimal(k, c.nExperts, best.value) && Possible(k, best.value.ubs, best.value.nUb);
    if best.Some? {
      PolicyIsRight(c, best.value, max);
    }
  }
}
