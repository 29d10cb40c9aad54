/**
 Prefill keeps two lines of keys and values on the GPU and stores them from a second stream while the
 compute stream goes on. Two kinds of events order the streams: an attention event per micro-batch and
 a store event per line. The host issues work ahead of both streams; a wait refers to the latest record
 of its event at the time the wait is issued.
*/
module KvStreams {
  import opened Basics

  /** A host and two in-order streams. Work item `n` is layer `n / slots` of micro-batch `n % slots`. */
  datatype State = State(
    slots: nat,                       // number of micro-batches
    computeWaits: seq<Option<nat>>,   // per issued compute item: the store it waits for
    storeWaits: seq<Option<nat>>,     // per issued store: the compute item it waits for
    attnEvents: seq<Option<nat>>,     // latest record of the attention event of each micro-batch
    lineEvents: seq<Option<nat>>,     // latest record of the store event of each line
    computed: nat,                    // items the compute stream has executed
    stored: seq<Option<nat>>,         // whose data each executed store has copied
    lines: seq<Option<nat>>)          // whose data each GPU line holds

  datatype Step = IssueCompute | IssueStore | RunCompute | RunStore

  function MicroBatchOf(slots: nat, n: nat): nat
    requires slots > 0
  {
    n % slots
  }

  /** Micro-batches take the two lines in turn. */
  function Line(slots: nat, n: nat): (r: nat)
    requires slots > 0
    ensures r < 2
  {
    MicroBatchOf(slots, n) % 2
  }

  predicate Shaped(s: State) {
    s.slots > 0 && |s.attnEvents| == s.slots && |s.lineEvents| == 2 && |s.lines| == 2
  }

  function Start(slots: nat): State {
    State(slots, [], [], seq(slots, _ => None), [None, None], 0, [], [None, None])
  }

  predicate Reached(wait: Option<nat>, done: nat) {
    wait.None? || wait.value < done
  }

  /** The host issues each item before its store; a stream runs its next item once its wait is over. */
  predicate Enabled(s: State, step: Step)
    requires Shaped(s)
  {
    match step
    case IssueCompute => |s.computeWaits| == |s.storeWaits|
    case IssueStore => |s.storeWaits| < |s.computeWaits|
    case RunCompute => s.computed < |s.computeWaits| && Reached(s.computeWaits[s.computed], |s.stored|)
    case RunStore =>
      |s.stored| < |s.storeWaits| && Reached(s.storeWaits[|s.stored|], s.computed)
  }

  function Take(s: State, step: Step): State
    requires Shaped(s) && Enabled(s, step)
  {
    match step
    case IssueCompute =>
      var n := |s.computeWaits|;
      s.(computeWaits := s.computeWaits + [s.lineEvents[Line(s.slots, n)]],
         attnEvents := s.attnEvents[MicroBatchOf(s.slots, n) := Some(n)])
    case IssueStore =>
      var n := |s.storeWaits|;
      s.(storeWaits := s.storeWaits + [s.attnEvents[MicroBatchOf(s.slots, n)]],
         lineEvents := s.lineEvents[Line(s.slots, n) := Some(n)])
    case RunCompute =>
      s.(computed := s.computed + 1, lines := s.lines[Line(s.slots, s.computed) := Some(s.computed)])
    case RunStore =>
      s.(stored := s.stored + [s.lines[Line(s.slots, |s.stored|)]])
  }

  /** The states a run of steps passes through. */
  ghost predicate IsRun(slots: nat, run: seq<State>) {
    && |run| > 0 && run[0] == Start(slots)
    && forall j :: 0 <= j < |run| - 1 ==> Follows(run[j], run[j + 1])
  }

  ghost predicate Follows(s: State, t: State) {
    Shaped(s) && exists step :: Enabled(s, step) && t == Take(s, step)
  }

  /** No item before `n` and not before `lo` uses the line of `n`. */
  ghost predicate LineFree(slots: nat, lo: nat, n: nat)
    requires slots > 0
  {
    forall m :: lo <= m < n ==> Line(slots, m) != Line(slots, n)
  }

  /** The first item whose store is later than the one `wait` refers to. */
  function After(wait: Option<nat>): nat {
    if wait.None? then 0 else wait.value + 1
  }

  ghost predicate Inv(s: State) {
    && Shaped(s)
    && |s.stored| <= s.computed <= |s.computeWaits| <= |s.storeWaits| + 1
    && |s.stored| <= |s.storeWaits| <= |s.computeWaits|
    && WaitsRight(s)
    // items computed but not stored still own their lines
    && (forall n :: |s.stored| <= n < s.computed ==> s.lines[Line(s.slots, n)] == Some(n))
    // every store has copied the data of its own item
    && (forall n :: 0 <= n < |s.stored| ==> s.stored[n] == Some(n))
  }

  /** An item waits for the last store issued on its line, a store for its own item. */
  ghost predicate WaitsRight(s: State)
    requires Shaped(s)
  {
    && (forall l :: 0 <= l < 2 ==> After(s.lineEvents[l]) <= |s.storeWaits|)
    && (forall l, m :: 0 <= l < 2 && After(s.lineEvents[l]) <= m < |s.storeWaits| ==> Line(s.slots, m) != l)
    && (forall n :: 0 <= n < |s.computeWaits| ==>
      After(s.computeWaits[n]) <= n && LineFree(s.slots, After(s.computeWaits[n]), n))
    && (forall n :: 0 <= n < |s.computeWaits| ==> After(s.computeWaits[n]) <= |s.storeWaits|)
    && (forall n :: 0 <= n < |s.storeWaits| ==> s.storeWaits[n] == Some(n))
    && (|s.storeWaits| < |s.computeWaits| ==>
      s.attnEvents[MicroBatchOf(s.slots, |s.storeWaits|)] == Some(|s.storeWaits|))
  }

  lemma StartInv(slots: nat)
    requires slots > 0
    ensures Inv(Start(slots))
  {
  }

  lemma IssueComputeKeepsWaits(s: State)
    requires Inv(s) && Enabled(s, IssueCompute)
    ensures WaitsRight(Take(s, IssueCompute))
  {
    var t := Take(s, IssueCompute);
    forall n | 0 <= n < |t.computeWaits|
      ensures After(t.computeWaits[n]) <= n && LineFree(t.slots, After(t.computeWaits[n]), n)
    {
      if n < |s.computeWaits| {
        assert LineFree(s.slots, After(s.computeWaits[n]), n);
      }
    }
  }

  lemma IssueStoreKeepsWaits(s: State)
    requires Inv(s) && Enabled(s, IssueStore)
    ensures WaitsRight(Take(s, IssueStore))
  {
  }

  /** Writing a line is safe: whatever it held has been stored. */
  lemma ComputeKeepsLines(s: State, n: nat)
    requires Inv(s) && Enabled(s, RunCompute) && |s.stored| <= n < s.computed
    ensures Line(s.slots, n) != Line(s.slots, s.computed)
  {
    assert LineFree(s.slots, After(s.computeWaits[s.computed]), s.computed);
  }

  lemma RunKeepsLines(s: State, step: Step)
    requires Inv(s) && Enabled(s, step) && (step.RunCompute? || step.RunStore?)
    ensures var t := Take(s, step);
            forall n :: |t.stored| <= n < t.computed ==> t.lines[Line(t.slots, n)] == Some(n)
  {
    var t := Take(s, step);
    forall n | |t.stored| <= n < t.computed
      ensures t.lines[Line(t.slots, n)] == Some(n)
    {
      if step.RunCompute? && n < s.computed {
        ComputeKeepsLines(s, n);
      }
    }
  }

  lemma TakeKeepsInv(s: State, step: Step)
    requires Inv(s) && Enabled(s, step)
    ensures Inv(Take(s, step))
  {
    if step.IssueCompute? {
      IssueComputeKeepsWaits(s);
    } else if step.IssueStore? {
      IssueStoreKeepsWaits(s);
    } else {
      RunKeepsLines(s, step);
    }
  }

  /** On every run each store copies what its own layer and micro-batch wrote, never a later writer's data. */
  lemma {:induction false} StoresCopyTheirOwn(slots: nat, run: seq<State>, j: nat)
    requires slots > 0 && IsRun(slots, run) && j < |run|
    ensures Inv(run[j])
    ensures forall n :: 0 <= n < |run[j].stored| ==> run[j].stored[n] == Some(n)
  {
    if j == 0 {
      StartInv(slots);
    } else {
      StoresCopyTheirOwn(slots, run, j - 1);
      assert Follows(run[j - 1], run[j - 1 + 1]);
      var step :| Enabled(run[j - 1], step) && run[j] == Take(run[j - 1], step);
      TakeKeepsInv(run[j - 1], step);
    }
  }

  /** No run gets stuck: whenever issued work is left, one of the streams can go on. */
  lemma StreamsNeverWaitForever(s: State)
    requires Inv(s) && (s.computed < |s.computeWaits| || |s.stored| < |s.storeWaits|)
    ensures Enabled(s, RunCompute) || Enabled(s, RunStore)
  {
    if s.computed < |s.computeWaits| && (|s.stored| == s.computed || |s.stored| == |s.storeWaits|) {
      assert After(s.computeWaits[s.computed]) <= |s.stored|;
    }
  }

  /** Issued work that the streams have not run. */
  function Left(s: State): int {
    (|s.computeWaits| - s.computed) + (|s.storeWaits| - |s.stored|)
  }

  /** Every step of a stream runs one item of what is issued; the host only adds. */
  lemma StepsCount(s: State, step: Step)
    requires Shaped(s) && Enabled(s, step)
    ensures Left(Take(s, step)) == Left(s) + if step.RunCompute? || step.RunStore? then -1 else 1
    ensures var t := Take(s, step);
            && |t.computeWaits| == |s.computeWaits| + (if step.IssueCompute? then 1 else 0)
            && |t.storeWaits| == |s.storeWaits| + (if step.IssueStore? then 1 else 0)
            && t.computed == s.computed + (if step.RunCompute? then 1 else 0)
            && |t.stored| == |s.stored| + (if step.RunStore? then 1 else 0)
  {
  }

  /** The streams alone bring all issued work to its end, and then the data of every item is stored. */
  lemma {:induction false} StreamsFinish(s: State) returns (run: seq<State>)
    requires Inv(s) && |s.computeWaits| == |s.storeWaits|
    ensures |run| == Left(s) + 1 && run[0] == s && forall j :: 0 <= j < |run| - 1 ==> Follows(run[j], run[j + 1])
    ensures var t := run[|run| - 1];
            && t.computed == |s.computeWaits| && |t.stored| == |s.storeWaits|
            && forall n :: 0 <= n < |s.storeWaits| ==> t.stored[n] == Some(n)
    decreases Left(s)
  {
    if s.computed == |s.computeWaits| && |s.stored| == |s.storeWaits| {
      run := [s];
    } else {
      StreamsNeverWaitForever(s);
      var step := if Enabled(s, RunCompute) then RunCompute else RunStore;
      TakeKeepsInv(s, step);
      StepsCount(s, step);
      var rest := StreamsFinish(Take(s, step));
      run := [s] + rest;
      assert Follows(s, Take(s, step));
      forall j | 0 <= j < |run| - 1
        ensures Follows(run[j], run[j + 1])
      {
        assert j > 0 ==> run[j] == rest[j - 1] && run[j + 1] == rest[j - 1 + 1];
      }
    }
  }

  /** Layer `i` of micro-batch `k` uses the line of the parity of `k`, so neighbours in a layer never share one. */
  lemma LineOfItem(slots: nat, i: nat, k: nat)
    requires k < slots
    ensures Line(slots, i * slots + k) == k % 2
    ensures k + 1 < slots ==> Line(slots, i * slots + k) != Line(slots, i * slots + k + 1)
  {
    DivMod(slots, i, k);
    if k + 1 < slots {
      DivMod(slots, i, k + 1);
    }
  }
}
