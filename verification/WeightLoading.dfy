/** How every rank fills its packed parameters from the weights of the whole model. */
module WeightLoading {
  import opened Basics
  import opened FusedMoe
  import opened TensorParallel

  // -------------------------------------------------------------------------------------- packed experts

  /** Copies the rows of a matrix one after the other into a stretch of a page. */
  method CopyRows(page: array<real>, at: nat, w: seq<seq<real>>, rows: nat, columns: nat)
    requires Matrix(w, rows, columns) && at + Times(rows, columns) <= page.Length
    modifies page
    ensures StoredAt(w, page[..], at, rows, columns)
    ensures forall i :: 0 <= i < page.Length && !(at <= i < at + Times(rows, columns)) ==> page[i] == old(page[i])
  {
    for r := 0 to rows
      invariant forall k: nat {:trigger w[k]} :: k < r ==> RowStored(w[k], page[..], at + Times(k, columns))
      invariant forall i :: 0 <= i < page.Length && !(at <= i < at + Times(r, columns)) ==> page[i] == old(page[i])
    {
      TimesGrows(r + 1, rows, columns);
      ghost var page0 := page[..];
      CopyRow(page, at + Times(r, columns), w[r]);
      forall k: nat {:trigger w[k]} | k < r
        ensures RowStored(w[k], page[..], at + Times(k, columns))
      {
        TimesGrows(k + 1, r, columns);
        assert RowStored(w[k], page0, at + Times(k, columns));
      }
    }
  }

  method CopyRow(page: array<real>, at: nat, row: seq<real>)
    requires at + |row| <= page.Length
    modifies page
    ensures forall c :: 0 <= c < |row| ==> page[at + c] == row[c]
    ensures forall i :: 0 <= i < page.Length && !(at <= i < at + |row|) ==> page[i] == old(page[i])
  {
    for c := 0 to |row|
      invariant forall k :: 0 <= k < c ==> page[at + k] == row[k]
      invariant forall i :: 0 <= i < page.Length && !(at <= i < at + c) ==> page[i] == old(page[i])
    {
      page[at + c] := row[c];
    }
  }

  datatype WeightName = W1 | W3 | W2

  /** Where a matrix of the expert starts in its page. */
  function OffsetOf(name: WeightName, hidden: nat, size: nat): nat {
    match name
    case W1 => 0
    case W3 => Times(size, hidden)
    case W2 => Times(size, hidden) + Times(size, hidden)
  }

  function MatrixOf(e: Expert, name: WeightName): seq<seq<real>> {
    match name
    case W1 => e.w1
    case W3 => e.w3
    case W2 => e.w2
  }

  ghost predicate Loaded(e: Expert, name: WeightName, page: seq<real>, hidden: nat, inner: nat, size: nat, rank: nat)
    requires ExpertShaped(e, hidden, inner) && Times(rank + 1, size) <= inner
  {
    var s := Shard(e, hidden, inner, size, rank);
    if name == W2 then StoredAt(s.w2, page, OffsetOf(W2, hidden, size), hidden, size)
    else StoredAt(MatrixOf(s, name), page, OffsetOf(name, hidden, size), size, hidden)
  }

  /** Loads the rank's part of one matrix of an expert into the page of the expert. */
  method WeightLoader(page: array<real>, e: Expert, name: WeightName, hidden: nat, inner: nat, size: nat, rank: nat)
    requires ExpertShaped(e, hidden, inner) && Times(rank + 1, size) <= inner
    requires page.Length == Times(size, hidden) + Times(size, hidden) + Times(size, hidden)
    modifies page
    ensures Loaded(e, name, page[..], hidden, inner, size, rank)
    ensures var at := OffsetOf(name, hidden, size);
            forall i :: 0 <= i < page.Length && !(at <= i < at + Times(size, hidden)) ==> page[i] == old(page[i])
  {
    TimesCommute(size, hidden);
    match name
    case W1 => CopyRows(page, 0, Part(e.w1, size, rank), size, hidden);
    case W3 => CopyRows(page, Times(size, hidden), Part(e.w3, size, rank), size, hidden);
    case W2 =>
      CopyRows(page, Times(size, hidden) + Times(size, hidden),
               seq(hidden, c requires 0 <= c < hidden => Part(e.w2[c], size, rank)), hidden, size);
  }

  lemma StoredStays(w: seq<seq<real>>, page0: seq<real>, page: seq<real>, at: nat, rows: nat, columns: nat)
    requires StoredAt(w, page0, at, rows, columns) && |page| == |page0|
    requires forall i :: at <= i < at + Times(rows, columns) ==> page[i] == page0[i]
    ensures StoredAt(w, page, at, rows, columns)
  {
    forall r: nat {:trigger w[r]} | r < rows
      ensures RowStored(w[r], page, at + Times(r, columns))
    {
      TimesGrows(r + 1, rows, columns);
      assert RowStored(w[r], page0, at + Times(r, columns));
    }
  }

  /** Loading one matrix leaves the others in the page. */
  lemma LoadedStays(e: Expert, name: WeightName, other: WeightName, page0: seq<real>, page: seq<real>, hidden: nat,
                    inner: nat, size: nat, rank: nat)
    requires ExpertShaped(e, hidden, inner) && Times(rank + 1, size) <= inner && name != other && |page| == |page0|
    requires Loaded(e, other, page0, hidden, inner, size, rank)
    requires var at := OffsetOf(name, hidden, size);
             forall i :: 0 <= i < |page| && !(at <= i < at + Times(size, hidden)) ==> page[i] == page0[i]
    ensures Loaded(e, other, page, hidden, inner, size, rank)
  {
    TimesCommute(size, hidden);
    var s := Shard(e, hidden, inner, size, rank);
    if other == W2 {
      StoredStays(s.w2, page0, page, OffsetOf(W2, hidden, size), hidden, size);
    } else {
      StoredStays(MatrixOf(s, other), page0, page, OffsetOf(other, hidden, size), size, hidden);
    }
  }

  /** Once every matrix has been loaded, in whatever order, the page holds the rank's shard as the kernel reads it. */
  method LoadExpert(page: array<real>, e: Expert, order: seq<WeightName>, hidden: nat, inner: nat, size: nat, rank: nat)
    requires ExpertShaped(e, hidden, inner) && Times(rank + 1, size) <= inner
    requires page.Length == Times(size, hidden) + Times(size, hidden) + Times(size, hidden)
    requires W1 in order && W3 in order && W2 in order
    modifies page
    ensures Packed(Shard(e, hidden, inner, size, rank), page[..], hidden, size)
  {
    for n := 0 to |order|
      invariant forall name :: name in order[..n] ==> Loaded(e, name, page[..], hidden, inner, size, rank)
    {
      ghost var page0 := page[..];
      WeightLoader(page, e, order[n], hidden, inner, size, rank);
      forall name | name in order[..n + 1]
        ensures Loaded(e, name, page[..], hidden, inner, size, rank)
      {
        if name != order[n] {
          LoadedStays(e, order[n], name, page0, page[..], hidden, inner, size, rank);
        }
      }
    }
    assert order[..|order|] == order;
    assert Loaded(e, W1, page[..], hidden, inner, size, rank) && Loaded(e, W3, page[..], hidden, inner, size, rank)
        && Loaded(e, W2, page[..], hidden, inner, size, rank);
  }
}
