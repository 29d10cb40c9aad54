/**
 The mixture-of-experts layer: a tiled matrix product over tokens sorted by expert, run twice over
 packed expert weights, with the gated activation in between.
*/
module FusedMoe {
  import opened Basics
  import opened MoeAlign
  import opened PidMap

  /**
   One launch of the kernel: rows of `a` (one for every `topK` routed tokens) times the weights of the
   expert of each routed token, read from its page from row `w2Off` on, in rows of width `k`.
  */
  datatype Call = Call(a: seq<seq<real>>, pool: seq<seq<real>>, bInd: seq<nat>, w2Off: nat, weights: seq<real>,
                       topk: seq<nat>, experts: nat, align: Alignment, n: nat, k: nat, topK: nat, mulWeight: bool,
                       blockM: nat, blockN: nat, blockK: nat, group: nat)

  ghost predicate Proper(x: Call) {
    && x.n > 0 && x.topK > 0 && x.blockN > 0 && x.blockK > 0 && x.group > 0
    && Aligned(x.topk, x.experts, x.blockM, x.align) && |x.weights| == |x.topk|
    && (forall t :: 0 <= t < |x.topk| ==> x.topk[t] < x.experts)
    && (forall t: nat {:trigger Quotient(t, x.topK)} :: t < |x.topk| ==> Quotient(t, x.topK) < |x.a|)
    && (forall r :: 0 <= r < |x.a| ==> |x.a[r]| == x.k)
    && |x.bInd| == x.experts
    && (forall e :: 0 <= e < x.experts ==> x.bInd[e] < |x.pool| && Times(x.w2Off + x.n, x.k) <= |x.pool[x.bInd[e]]|)
  }

  /** The first `n` terms of the product of a row with a stretch of a page. */
  function RowDot(a: seq<real>, page: seq<real>, base: nat, n: nat): real
    requires n <= |a| && base + n <= |page|
  {
    if n == 0 then 0.0 else RowDot(a, page, base, n - 1) + a[n - 1] * page[base + n - 1]
  }

  lemma RowInPage(x: Call, e: nat, c: nat)
    requires Proper(x) && e < x.experts && c < x.n
    ensures Times(x.w2Off + c, x.k) + x.k <= |x.pool[x.bInd[e]]|
    ensures Times(x.w2Off + c, x.k) == Times(x.w2Off, x.k) + Times(c, x.k)
  {
    TimesGrows(x.w2Off + c + 1, x.w2Off + x.n, x.k);
    TimesCommute(x.w2Off, x.k);
    TimesSum(x.w2Off, c, x.k);
  }

  /** What the kernel is to leave in row `t` and column `c`. */
  function Entry(x: Call, t: nat, c: nat): real
    requires Proper(x) && t < |x.topk| && c < x.n
  {
    RowInPage(x, x.topk[t], c);
    var dot := RowDot(x.a[Quotient(t, x.topK)], x.pool[x.bInd[x.topk[t]]], Times(x.w2Off + c, x.k), x.k);
    if x.mulWeight then Mul(dot, x.weights[t]) else dot
  }

  // ---------------------------------------------------------------------------- which program writes a cell

  function GridOf(x: Call): (g: Grid)
    requires Proper(x)
    ensures PidMap.Proper(g)
  {
    Grid(Blocks(|x.align.sorted|, x.blockM), Blocks(x.n, x.blockN), x.group)
  }

  /** The position at which the alignment puts a token. */
  ghost function PosOf(x: Call, t: nat): (p: nat)
    requires Proper(x) && t < |x.topk|
    ensures p < x.align.padded && x.align.sorted[p] == t
  {
    assert Placed(x.align.sorted, x.align.padded, t);
    var p :| 0 <= p < x.align.padded && x.align.sorted[p] == t;
    p
  }

  lemma PosIsUnique(x: Call, p: nat)
    requires Proper(x) && p < x.align.padded && x.align.sorted[p] < |x.topk|
    ensures PosOf(x, x.align.sorted[p]) == p
  {
  }

  lemma TileInGrid(x: Call, p: nat, c: nat)
    requires Proper(x) && p < x.align.padded && c < x.n
    ensures Quotient(p, x.blockM) < GridOf(x).m && Quotient(c, x.blockN) < GridOf(x).n
  {
    QuotientBelow(p, GridOf(x).m, x.blockM);
    QuotientBelow(c, GridOf(x).n, x.blockN);
  }

  /** The one program that writes the cell of a token and a column. */
  ghost function Owner(x: Call, t: nat, c: nat): (pid: nat)
    requires Proper(x) && t < |x.topk| && c < x.n
    ensures pid < Times(GridOf(x).n, GridOf(x).m)
  {
    TileInGrid(x, PosOf(x, t), c);
    TileHasPid(GridOf(x), Quotient(PosOf(x, t), x.blockM), Quotient(c, x.blockN));
    PidOf(GridOf(x), Quotient(PosOf(x, t), x.blockM), Quotient(c, x.blockN))
  }

  /** A program owns a cell exactly if the token's position and the column lie in its tile. */
  lemma OwnsTile(x: Call, pid: nat, t: nat, c: nat)
    requires Proper(x) && pid < Times(GridOf(x).n, GridOf(x).m) && t < |x.topk| && c < x.n
    ensures Owner(x, t, c) == pid <==>
            Quotient(PosOf(x, t), x.blockM) == PidM(GridOf(x), pid) && Quotient(c, x.blockN) == PidN(GridOf(x), pid)
  {
    TileInGrid(x, PosOf(x, t), c);
    TileHasPid(GridOf(x), Quotient(PosOf(x, t), x.blockM), Quotient(c, x.blockN));
    PidHasTile(GridOf(x), pid);
  }

  /** A tile that starts among the used positions lies there entirely. */
  lemma WholeTile(x: Call, pm: nat)
    requires Proper(x) && Times(pm, x.blockM) < x.align.padded
    ensures Times(pm + 1, x.blockM) <= x.align.padded
  {
    var blocks := Quotient(x.align.padded, x.blockM);
    TimesGrows(blocks, if blocks <= pm then pm else blocks, x.blockM);
    TimesGrows(pm + 1, if blocks <= pm then pm + 1 else blocks, x.blockM);
  }

  // ---------------------------------------------------------------------------------------------- a program

  function Min(a: nat, b: nat): nat {
    if a < b then a else b
  }

  /** The token at a place of a tile, and the column at a place of a tile, wrapped around at the end of the matrix. */
  function TokenAt(x: Call, pm: nat, i: nat): nat
    requires Times(pm, x.blockM) + i < |x.align.sorted|
  {
    x.align.sorted[Times(pm, x.blockM) + i]
  }

  function ColumnAt(x: Call, pn: nat, j: nat): (c: nat)
    requires x.n > 0
    ensures c < x.n
  {
    Remainder(Times(pn, x.blockN) + j, x.n)
  }

  /** A tile of rows that is in use, and the expert it belongs to. */
  ghost predicate InUse(x: Call, pm: nat, e: nat) {
    && Proper(x) && Times(pm + 1, x.blockM) <= x.align.padded && e < x.experts
    && forall i: nat :: i < x.blockM && TokenAt(x, pm, i) < |x.topk| ==> x.topk[TokenAt(x, pm, i)] == e
  }

  lemma PlaceInTile(x: Call, pm: nat, i: nat)
    requires Proper(x) && Times(pm + 1, x.blockM) <= x.align.padded && i < x.blockM
    ensures Quotient(Times(pm, x.blockM) + i, x.blockM) == pm < |x.align.expertIds| && x.align.expertIds[pm] < x.experts
    ensures TokenAt(x, pm, i) < |x.topk| ==> x.topk[TokenAt(x, pm, i)] == x.align.expertIds[pm]
  {
    QuotientShifts(pm, i, x.blockM);
    assert PlaceRight(x.topk, x.experts, x.blockM, x.align.sorted, x.align.expertIds, Times(pm, x.blockM) + i);
  }

  lemma TileHasExpert(x: Call, pm: nat)
    requires Proper(x) && Times(pm + 1, x.blockM) <= x.align.padded
    ensures pm < |x.align.expertIds| && InUse(x, pm, x.align.expertIds[pm])
  {
    PlaceInTile(x, pm, 0);
    forall i: nat | i < x.blockM && TokenAt(x, pm, i) < |x.topk|
      ensures x.topk[TokenAt(x, pm, i)] == x.align.expertIds[pm]
    {
      PlaceInTile(x, pm, i);
    }
  }

  /** The accumulator at a place of the tile after the first `upTo` columns of the input; padding rows do not matter. */
  ghost predicate ElementUpTo(x: Call, pm: nat, pn: nat, e: nat, i: nat, j: nat, upTo: nat, v: real)
    requires InUse(x, pm, e) && i < x.blockM && upTo <= x.k
  {
    TokenAt(x, pm, i) < |x.topk| ==>
      (RowInPage(x, e, ColumnAt(x, pn, j));
       v == RowDot(x.a[Quotient(TokenAt(x, pm, i), x.topK)], x.pool[x.bInd[e]],
         Times(x.w2Off + ColumnAt(x, pn, j), x.k), upTo))
  }

  /** One element of the product of two blocks: masked behind the end of the input row, and in padding rows. */
  method AddBlock(x: Call, pm: nat, pn: nat, e: nat, i: nat, j: nat, from: nat, v0: real) returns (v: real)
    requires InUse(x, pm, e) && i < x.blockM && from <= x.k && ElementUpTo(x, pm, pn, e, i, j, from, v0)
    ensures ElementUpTo(x, pm, pn, e, i, j, Min(from + x.blockK, x.k), v)
  {
    var token, column := TokenAt(x, pm, i), ColumnAt(x, pn, j);
    RowInPage(x, e, column);
    var page, base := x.pool[x.bInd[e]], Times(x.w2Off, x.k) + Times(column, x.k);
    v := v0;
    for kk := 0 to x.blockK
      invariant ElementUpTo(x, pm, pn, e, i, j, Min(from + kk, x.k), v)
    {
      var a := if token < |x.topk| && from + kk < x.k then x.a[Quotient(token, x.topK)][from + kk] else 0.0;
      var b := if from + kk < x.k then page[base + from + kk] else 0.0;
      v := v + a * b;
    }
  }

  ghost predicate TileUpTo(x: Call, pm: nat, pn: nat, e: nat, acc: array2<real>, upTo: nat)
    requires InUse(x, pm, e) && upTo <= x.k && acc.Length0 == x.blockM && acc.Length1 == x.blockN
    reads acc
  {
    forall i: nat, j: nat :: i < x.blockM && j < x.blockN ==> ElementUpTo(x, pm, pn, e, i, j, upTo, acc[i, j])
  }

  /** Adds the product of a block of inputs and a block of weights. */
  method AddBlocks(x: Call, pm: nat, pn: nat, e: nat, acc: array2<real>, from: nat)
    requires InUse(x, pm, e) && from <= x.k && acc.Length0 == x.blockM && acc.Length1 == x.blockN
             && TileUpTo(x, pm, pn, e, acc, from)
    modifies acc
    ensures TileUpTo(x, pm, pn, e, acc, Min(from + x.blockK, x.k))
  {
    for i := 0 to x.blockM
      invariant forall a: nat, j: nat :: a < i && j < x.blockN ==>
                ElementUpTo(x, pm, pn, e, a, j, Min(from + x.blockK, x.k), acc[a, j])
      invariant forall a: nat, j: nat :: i <= a < x.blockM && j < x.blockN ==> acc[a, j] == old(acc[a, j])
    {
      for j := 0 to x.blockN
        invariant forall a: nat, b: nat :: a < x.blockM && b < x.blockN && (a < i || (a == i && b < j)) ==>
                    ElementUpTo(x, pm, pn, e, a, b, Min(from + x.blockK, x.k), acc[a, b])
        invariant forall a: nat, b: nat :: a < x.blockM && b < x.blockN && !(a < i || (a == i && b < j)) ==>
                  acc[a, b] == old(acc[a, b])
      {
        var v := AddBlock(x, pm, pn, e, i, j, from, acc[i, j]);
        acc[i, j] := v;
      }
    }
  }

  /** The whole product for a tile, block by block along the input row. */
  method MultiplyTile(x: Call, pm: nat, pn: nat, e: nat) returns (acc: array2<real>)
    requires InUse(x, pm, e)
    ensures fresh(acc) && acc.Length0 == x.blockM && acc.Length1 == x.blockN && TileUpTo(x, pm, pn, e, acc, x.k)
  {
    acc := new real[x.blockM, x.blockN]((i, j) => 0.0);
    var from := 0;
    while from < x.k
      invariant from <= x.k && TileUpTo(x, pm, pn, e, acc, from)
    {
      AddBlocks(x, pm, pn, e, acc, from);
      from := Min(from + x.blockK, x.k);
    }
  }

  /** A finished element is the entry of its token and column. */
  lemma ElementIsEntry(x: Call, pm: nat, pn: nat, e: nat, i: nat, j: nat, v: real, c: nat)
    requires InUse(x, pm, e) && i < x.blockM && ElementUpTo(x, pm, pn, e, i, j, x.k, v)
    requires TokenAt(x, pm, i) < |x.topk| && c == Times(pn, x.blockN) + j < x.n
    ensures Entry(x, TokenAt(x, pm, i), c) == if x.mulWeight then Mul(v, x.weights[TokenAt(x, pm, i)]) else v
  {
    ColumnInRange(x, pn, j, c);
    RowInPage(x, e, c);
    assert x.topk[TokenAt(x, pm, i)] == e;
  }

  lemma ColumnInRange(x: Call, pn: nat, j: nat, c: nat)
    requires c == Times(pn, x.blockN) + j < x.n
    ensures ColumnAt(x, pn, j) == c
  {
  }

  /** The cell's place in the tile comes before row `i` and column `j`. */
  ghost predicate Stored(x: Call, pm: nat, pn: nat, i: nat, j: nat, t: nat, c: nat)
    requires Proper(x) && t < |x.topk|
  {
    var r, first := PosOf(x, t) - Times(pm, x.blockM), Times(pn, x.blockN);
    first <= c < first + x.blockN && (0 <= r < i || (r == i && c < first + j))
  }

  /** Cells that are stored hold their entries, the others what they held before. */
  ghost predicate StoredSo(x: Call, pm: nat, pn: nat, i: nat, j: nat, before: seq<seq<real>>, out: array2<real>)
    requires Proper(x) && |before| == |x.topk| == out.Length0 && out.Length1 == x.n
             && forall t :: 0 <= t < |before| ==> |before[t]| == x.n
    reads out
  {
    forall t: nat, c: nat :: t < |x.topk| && c < x.n ==>
      out[t, c] == if Stored(x, pm, pn, i, j, t, c) then Entry(x, t, c) else before[t][c]
  }

  ghost function Rows(out: array2<real>): (r: seq<seq<real>>)
    reads out
    ensures |r| == out.Length0 && forall t :: 0 <= t < |r| ==> |r[t]| == out.Length1
    ensures forall t, c :: 0 <= t < out.Length0 && 0 <= c < out.Length1 ==> r[t][c] == out[t, c]
  {
    seq(out.Length0, t requires 0 <= t < out.Length0 reads out =>
      seq(out.Length1, c requires 0 <= c < out.Length1 reads out => out[t, c]))
  }

  /** Writes one row of the tile, behind its masks. */
  method StoreTileRow(x: Call, pm: nat, pn: nat, e: nat, i: nat, acc: array2<real>, out: array2<real>,
                      ghost before: seq<seq<real>>)
    requires InUse(x, pm, e) && i < x.blockM && acc != out && acc.Length0 == x.blockM && acc.Length1 == x.blockN
             && TileUpTo(x, pm, pn, e, acc, x.k)
    requires |before| == |x.topk| == out.Length0 && out.Length1 == x.n && forall t :: 0 <= t < |before| ==>
             |before[t]| == x.n
    requires StoredSo(x, pm, pn, i, 0, before, out)
    modifies out
    ensures StoredSo(x, pm, pn, i + 1, 0, before, out)
  {
    var t0, first := TokenAt(x, pm, i), Times(pn, x.blockN);
    for j := 0 to x.blockN
      invariant StoredSo(x, pm, pn, i, j, before, out)
    {
      if t0 < |x.topk| {
        PosIsUnique(x, Times(pm, x.blockM) + i);
        var c0 := first + j;
        if c0 < x.n {
          ElementIsEntry(x, pm, pn, e, i, j, acc[i, j], c0);
          var v := if x.mulWeight then Mul(acc[i, j], x.weights[t0]) else acc[i, j];
          assert v == Entry(x, t0, c0);
          out[t0, c0] := v;
        }
      }
    }
  }

  lemma InTile(p: nat, block: nat, tile: nat)
    requires block > 0
    ensures Quotient(p, block) == tile <==> Times(tile, block) <= p < Times(tile, block) + block
  {
    Digits(p, block);
    if Times(tile, block) <= p < Times(tile, block) + block {
      SameOffset(Quotient(p, block), Remainder(p, block), tile, p - Times(tile, block), block);
    }
  }

  /** What a program stores is what it owns. */
  lemma StoredIsOwned(x: Call, pid: nat, t: nat, c: nat)
    requires Proper(x) && pid < Times(GridOf(x).n, GridOf(x).m) && t < |x.topk| && c < x.n
    ensures Stored(x, PidM(GridOf(x), pid), PidN(GridOf(x), pid), x.blockM, 0, t, c) <==> Owner(x, t, c) == pid
  {
    OwnsTile(x, pid, t, c);
    InTile(PosOf(x, t), x.blockM, PidM(GridOf(x), pid));
    InTile(c, x.blockN, PidN(GridOf(x), pid));
  }

  ghost predicate OwnedSo(x: Call, pid: nat, before: seq<seq<real>>, out: array2<real>)
    requires Proper(x) && |before| == |x.topk| == out.Length0 && out.Length1 == x.n
             && forall t :: 0 <= t < |before| ==> |before[t]| == x.n
    reads out
  {
    forall t: nat, c: nat :: t < |x.topk| && c < x.n ==> out[t, c] == if Owner(x, t, c) == pid then Entry(x, t, c)
      else before[t][c]
  }

  /** One program: it leaves the right entry in every cell it owns, and touches no other. */
  method Program(x: Call, pid: nat, out: array2<real>)
    requires Proper(x) && pid < Times(GridOf(x).n, GridOf(x).m) && out.Length0 == |x.topk| && out.Length1 == x.n
    modifies out
    ensures OwnedSo(x, pid, old(Rows(out)), out)
  {
    var pm, pn := PidM(GridOf(x), pid), PidN(GridOf(x), pid);
    ghost var before := Rows(out);
    if Times(pm, x.blockM) >= x.align.padded {
      forall t: nat, c: nat | t < |x.topk| && c < x.n
        ensures Owner(x, t, c) != pid
      {
        OwnsTile(x, pid, t, c);
        InTile(PosOf(x, t), x.blockM, pm);
      }
      return;
    }
    WholeTile(x, pm);
    TileHasExpert(x, pm);
    var e := x.align.expertIds[pm];
    var acc := MultiplyTile(x, pm, pn, e);
    StoreTile(x, pm, pn, e, acc, out, before);
    forall t: nat, c: nat | t < |x.topk| && c < x.n
      ensures out[t, c] == if Owner(x, t, c) == pid then Entry(x, t, c) else before[t][c]
    {
      StoredIsOwned(x, pid, t, c);
    }
  }

  method StoreTile(x: Call, pm: nat, pn: nat, e: nat, acc: array2<real>, out: array2<real>,
                   ghost before: seq<seq<real>>)
    requires InUse(x, pm, e) && acc != out && acc.Length0 == x.blockM && acc.Length1 == x.blockN
             && TileUpTo(x, pm, pn, e, acc, x.k)
    requires |before| == |x.topk| == out.Length0 && out.Length1 == x.n && (forall t :: 0 <= t < |before| ==>
             |before[t]| == x.n)
    requires Rows(out) == before
    modifies out
    ensures StoredSo(x, pm, pn, x.blockM, 0, before, out)
  {
    for i := 0 to x.blockM
      invariant StoredSo(x, pm, pn, i, 0, before, out)
    {
      StoreTileRow(x, pm, pn, e, i, acc, out, before);
    }
  }

  /** The whole launch: every entry of every routed token is computed, by exactly one program. */
  method Launch(x: Call, out: array2<real>)
    requires Proper(x) && out.Length0 == |x.topk| && out.Length1 == x.n
    modifies out
    ensures forall t: nat, c: nat :: t < |x.topk| && c < x.n ==> out[t, c] == Entry(x, t, c)
  {
    for pid := 0 to Times(GridOf(x).n, GridOf(x).m)
      invariant forall t: nat, c: nat :: t < |x.topk| && c < x.n && Owner(x, t, c) < pid ==> out[t, c] == Entry(x, t, c)
    {
      ghost var before := Rows(out);
      Program(x, pid, out);
      assert OwnedSo(x, pid, before, out);
    }
  }

  // ------------------------------------------------------------------------------------------ the whole layer

  /** The weights of an expert: two matrices from hidden to inner size, one back. */
  datatype Expert = Expert(w1: seq<seq<real>>, w3: seq<seq<real>>, w2: seq<seq<real>>)

  predicate Matrix(w: seq<seq<real>>, rows: nat, columns: nat) {
    |w| == rows && forall r :: 0 <= r < rows ==> |w[r]| == columns
  }

  predicate ExpertShaped(x: Expert, hidden: nat, inner: nat) {
    Matrix(x.w1, inner, hidden) && Matrix(x.w3, inner, hidden) && Matrix(x.w2, hidden, inner)
  }

  ghost predicate RowStored(row: seq<real>, page: seq<real>, base: nat) {
    base + |row| <= |page| && forall c :: 0 <= c < |row| ==> page[base + c] == row[c]
  }

  /** A matrix stored row by row from a given position on. */
  ghost predicate StoredAt(w: seq<seq<real>>, page: seq<real>, at: nat, rows: nat, columns: nat) {
    && Matrix(w, rows, columns) && at + Times(rows, columns) <= |page|
    && forall r: nat {:trigger w[r]} :: r < rows ==> RowStored(w[r], page, at + Times(r, columns))
  }

  /** A page holds the three matrices of an expert one after the other. */
  ghost predicate Packed(x: Expert, page: seq<real>, hidden: nat, inner: nat) {
    && StoredAt(x.w1, page, 0, inner, hidden) && StoredAt(x.w3, page, Times(inner, hidden), inner, hidden)
    && StoredAt(x.w2, page, Times(inner, hidden) + Times(inner, hidden), hidden, inner)
  }

  /** The gated activation of an expert for an input row. */
  function Activation(silu: real -> real, x: Expert, row: seq<real>, hidden: nat, inner: nat): (r: seq<real>)
    requires ExpertShaped(x, hidden, inner) && |row| == hidden
    ensures |r| == inner
  {
    seq(inner, i requires 0 <= i < inner => Mul(silu(Dot(row, x.w1[i])), Dot(row, x.w3[i])))
  }

  lemma {:induction false} RowDotIsDot(a: seq<real>, page: seq<real>, base: nat, w: seq<real>, n: nat)
    requires n <= |a| == |w| && base + |w| <= |page| && forall i :: 0 <= i < |w| ==> page[base + i] == w[i]
    ensures RowDot(a, page, base, n) == Dot(a[..n], w[..n])
  {
    if n > 0 {
      RowDotIsDot(a, page, base, w, n - 1);
      assert a[..n][..n - 1] == a[..n - 1] && w[..n][..n - 1] == w[..n - 1];
    }
  }

  /** Reading a row of a stored matrix through its place in the page. */
  lemma StoredRow(a: seq<real>, w: seq<seq<real>>, page: seq<real>, at: nat, rows: nat, columns: nat, r: nat, base: nat)
    requires StoredAt(w, page, at, rows, columns) && r < rows && |a| == columns && base == at + Times(r, columns)
    ensures base + columns <= |page| && RowDot(a, page, base, columns) == Dot(a, w[r])
  {
    assert RowStored(w[r], page, base);
    RowDotIsDot(a, page, base, w[r], columns);
    assert a[..columns] == a && w[r][..columns] == w[r];
  }

  /** The first view: rows of the hidden size; the first matrix is followed by the second. */
  lemma FirstView(x: Expert, page: seq<real>, hidden: nat, inner: nat, a: seq<real>, c: nat)
    requires Packed(x, page, hidden, inner) && |a| == hidden && c < inner + inner
    ensures Times(c, hidden) + hidden <= |page|
    ensures RowDot(a, page, Times(c, hidden), hidden) == if c < inner then Dot(a, x.w1[c]) else Dot(a, x.w3[c - inner])
  {
    if c < inner {
      StoredRow(a, x.w1, page, 0, inner, hidden, c, Times(c, hidden));
    } else {
      BehindFirst(x.w3, page, hidden, inner, a, c - inner, Times(c, hidden));
    }
  }

  lemma BehindFirst(w3: seq<seq<real>>, page: seq<real>, hidden: nat, inner: nat, a: seq<real>, r: nat, base: nat)
    requires StoredAt(w3, page, Times(inner, hidden), inner, hidden) && |a| == hidden && r < inner
    requires base == Times(inner + r, hidden)
    ensures base + hidden <= |page| && RowDot(a, page, base, hidden) == Dot(a, w3[r])
  {
    TimesSum(inner, r, hidden);
    StoredRow(a, w3, page, Times(inner, hidden), inner, hidden, r, base);
  }

  /** The second view: rows of the inner size; the third matrix begins after twice the hidden size. */
  lemma SecondView(x: Expert, page: seq<real>, hidden: nat, inner: nat, a: seq<real>, c: nat)
    requires Packed(x, page, hidden, inner) && |a| == inner && c < hidden
    ensures Times(hidden + hidden + c, inner) + inner <= |page|
    ensures RowDot(a, page, Times(hidden + hidden + c, inner), inner) == Dot(a, x.w2[c])
  {
    TimesSum(hidden + hidden, c, inner);
    TimesSum(hidden, hidden, inner);
    TimesCommute(hidden, inner);
    StoredRow(a, x.w2, page, Times(inner, hidden) + Times(inner, hidden), hidden, inner, c,
      Times(hidden + hidden + c, inner));
  }

  /**
   The layer: hidden states, pages of weights with the page of every expert, and the routing: `topk`
   experts and weights for every token, one token after the other.
  */
  datatype Layer = Layer(hidden: seq<seq<real>>, pool: seq<seq<real>>, indices: seq<nat>, experts: seq<Expert>,
                         topk: nat, ids: seq<nat>, weights: seq<real>, size: nat, inner: nat)

  predicate LayerShaped(x: Layer) {
    && x.size > 0 && x.inner > 0 && x.topk > 0 && Matrix(x.hidden, |x.hidden|, x.size)
    && |x.ids| == |x.weights| == Times(|x.hidden|, x.topk)
    && (forall t :: 0 <= t < |x.ids| ==> x.ids[t] < |x.experts|)
    && (forall e :: 0 <= e < |x.experts| ==> ExpertShaped(x.experts[e], x.size, x.inner))
  }

  /** The page of every expert holds its weights. */
  ghost predicate LayerFits(x: Layer) {
    && LayerShaped(x) && |x.indices| == |x.experts|
    && forall e :: 0 <= e < |x.experts| ==>
      x.indices[e] < |x.pool| && Packed(x.experts[e], x.pool[x.indices[e]], x.size, x.inner)
  }

  /** One dimension of the weighted output of an expert. */
  function Contribution(silu: real -> real, e: Expert, row: seq<real>, weight: real, c: nat, hidden: nat,
                        inner: nat): real
    requires ExpertShaped(e, hidden, inner) && |row| == hidden && c < hidden
  {
    Mul(Dot(Activation(silu, e, row, hidden, inner), e.w2[c]), weight)
  }

  /** The contribution of the expert that token `m` has in place `j`. */
  function Routed(silu: real -> real, x: Layer, m: nat, j: nat, c: nat): real
    requires LayerShaped(x) && m < |x.hidden| && j < x.topk && c < x.size
  {
    TimesGrows(m + 1, |x.hidden|, x.topk);
    var t := Times(m, x.topk) + j;
    Contribution(silu, x.experts[x.ids[t]], x.hidden[m], x.weights[t], c, x.size, x.inner)
  }

  /** What the layer is for: the weighted sum over the experts of a token. */
  function MixtureOf(silu: real -> real, x: Layer, m: nat, c: nat, upTo: nat): real
    requires LayerShaped(x) && m < |x.hidden| && upTo <= x.topk && c < x.size
  {
    if upTo == 0 then 0.0 else MixtureOf(silu, x, m, c, upTo - 1) + Routed(silu, x, m, upTo - 1, c)
  }

  lemma MixtureGrows(silu: real -> real, x: Layer, m: nat, c: nat, j: nat, v: real)
    requires LayerShaped(x) && m < |x.hidden| && j < x.topk && c < x.size && v == Routed(silu, x, m, j, c)
    ensures MixtureOf(silu, x, m, c, j + 1) == MixtureOf(silu, x, m, c, j) + v
  {
  }

  // ---------------------------------------------------------------------------- the same, entry by entry

  /** Row `i` of a matrix times a vector. */
  function ProductAt(w: seq<seq<real>>, i: nat, row: seq<real>): real {
    SumOf(Terms(Nth(w, i, []), row), |row|)
  }

  /** What inner unit `i` adds to output `c`: its weight there, times the gate, times what it gates. */
  function UnitTerms(silu: real -> real, e: Expert, row: seq<real>, c: nat): nat -> real {
    (i: nat) => Nth(Nth(e.w2, c, []), i, 0.0) * (silu(ProductAt(e.w1, i, row)) * ProductAt(e.w3, i, row))
  }

  function PlaceTerms(silu: real -> real, x: Layer, m: nat, c: nat): nat -> real
    requires LayerShaped(x) && m < |x.hidden|
  {
    (j: nat) =>
      var t := Times(m, x.topk) + j;
      if t < |x.ids| then
        SumOf(UnitTerms(silu, x.experts[x.ids[t]], x.hidden[m], c), x.inner) * x.weights[t]
      else 0.0
  }

  /** Output `c` of token `m` in sums and products of the entries of the matrices. */
  function PlainOutput(silu: real -> real, x: Layer, m: nat, c: nat): real
    requires LayerShaped(x) && m < |x.hidden|
  {
    SumOf(PlaceTerms(silu, x, m, c), x.topk)
  }

  lemma ProductIsDot(w: seq<seq<real>>, i: nat, row: seq<real>)
    requires i < |w| && |w[i]| == |row|
    ensures ProductAt(w, i, row) == Dot(row, w[i])
  {
    DotIsSum(row, w[i], |row|);
    assert row[..|row|] == row && w[i][..|row|] == w[i];
    SumsEqual(Terms(w[i], row), Terms(row, w[i]), |row|);
  }

  lemma UnitIsTerm(silu: real -> real, e: Expert, row: seq<real>, c: nat, hidden: nat, inner: nat, i: nat)
    requires ExpertShaped(e, hidden, inner) && |row| == hidden && c < hidden && i < inner
    ensures Terms(Activation(silu, e, row, hidden, inner), e.w2[c])(i) == UnitTerms(silu, e, row, c)(i)
  {
    ProductIsDot(e.w1, i, row);
    ProductIsDot(e.w3, i, row);
    var a := Activation(silu, e, row, hidden, inner);
    assert a[i] == silu(ProductAt(e.w1, i, row)) * ProductAt(e.w3, i, row);
    assert Terms(a, e.w2[c])(i) == a[i] * e.w2[c][i];
    assert Nth(Nth(e.w2, c, []), i, 0.0) == e.w2[c][i];
  }

  lemma ExpertIsPlain(silu: real -> real, e: Expert, row: seq<real>, c: nat, hidden: nat, inner: nat)
    requires ExpertShaped(e, hidden, inner) && |row| == hidden && c < hidden
    ensures Dot(Activation(silu, e, row, hidden, inner), e.w2[c]) == SumOf(UnitTerms(silu, e, row, c), inner)
  {
    var a := Activation(silu, e, row, hidden, inner);
    DotIsSum(a, e.w2[c], inner);
    assert a[..inner] == a && e.w2[c][..inner] == e.w2[c];
    forall i: nat | i < inner
      ensures Terms(a, e.w2[c])(i) == UnitTerms(silu, e, row, c)(i)
    {
      UnitIsTerm(silu, e, row, c, hidden, inner, i);
    }
    SumsEqual(Terms(a, e.w2[c]), UnitTerms(silu, e, row, c), inner);
  }

  lemma PlaceIsTerm(silu: real -> real, x: Layer, m: nat, c: nat, j: nat)
    requires LayerShaped(x) && m < |x.hidden| && j < x.topk && c < x.size
    ensures Routed(silu, x, m, j, c) == PlaceTerms(silu, x, m, c)(j)
  {
    TimesGrows(m + 1, |x.hidden|, x.topk);
    ExpertIsPlain(silu, x.experts[x.ids[Times(m, x.topk) + j]], x.hidden[m], c, x.size, x.inner);
  }

  lemma {:induction false} MixtureIsPlain(silu: real -> real, x: Layer, m: nat, c: nat, upTo: nat)
    requires LayerShaped(x) && m < |x.hidden| && upTo <= x.topk && c < x.size
    ensures MixtureOf(silu, x, m, c, upTo) == SumOf(PlaceTerms(silu, x, m, c), upTo)
  {
    if upTo > 0 {
      MixtureIsPlain(silu, x, m, c, upTo - 1);
      PlaceIsTerm(silu, x, m, c, upTo - 1);
      MixtureGrows(silu, x, m, c, upTo - 1, Routed(silu, x, m, upTo - 1, c));
    }
  }

  // ----------------------------------------------------------------------- which of the matrices is gated

  predicate AllZero(w: seq<seq<real>>) {
    forall r, c :: 0 <= r < |w| && 0 <= c < |w[r]| ==> w[r][c] == 0.0
  }

  lemma {:induction false} DotWithZero(a: seq<real>, b: seq<real>)
    requires |a| == |b|
    requires (forall i :: 0 <= i < |a| ==> a[i] == 0.0) || forall i :: 0 <= i < |b| ==> b[i] == 0.0
    ensures Dot(a, b) == 0.0
  {
    if a != [] {
      DotWithZero(a[..|a| - 1], b[..|b| - 1]);
    }
  }

  lemma NoContribution(silu: real -> real, e: Expert, row: seq<real>, weight: real, c: nat, hidden: nat, inner: nat)
    requires ExpertShaped(e, hidden, inner) && |row| == hidden && c < hidden && AllZero(e.w3)
    ensures Contribution(silu, e, row, weight, c, hidden, inner) == 0.0
  {
    var a := Activation(silu, e, row, hidden, inner);
    forall i | 0 <= i < inner
      ensures a[i] == 0.0
    {
      DotWithZero(row, e.w3[i]);
      assert a[i] == Mul(silu(Dot(row, e.w1[i])), 0.0);
    }
    DotWithZero(a, e.w2[c]);
  }

  /** With nothing to gate there is no output, whatever the gate. */
  lemma {:induction false} NothingGated(silu: real -> real, x: Layer, m: nat, c: nat, upTo: nat)
    requires LayerShaped(x) && m < |x.hidden| && upTo <= x.topk && c < x.size
    requires forall e :: 0 <= e < |x.experts| ==> AllZero(x.experts[e].w3)
    ensures MixtureOf(silu, x, m, c, upTo) == 0.0
  {
    if upTo > 0 {
      NothingGated(silu, x, m, c, upTo - 1);
      TimesGrows(m + 1, |x.hidden|, x.topk);
      var t := Times(m, x.topk) + upTo - 1;
      NoContribution(silu, x.experts[x.ids[t]], x.hidden[m], x.weights[t], c, x.size, x.inner);
    }
  }

  /** The products of all rows with a vector. */
  function Apply(w: seq<seq<real>>, row: seq<real>): (r: seq<real>)
    requires Matrix(w, |w|, |row|)
    ensures |r| == |w|
  {
    seq(|w|, i requires 0 <= i < |w| => Dot(row, w[i]))
  }

  function UngatedAt(x: Layer, m: nat, j: nat, c: nat): real
    requires LayerShaped(x) && m < |x.hidden| && j < x.topk && c < x.size
  {
    TimesGrows(m + 1, |x.hidden|, x.topk);
    var t := Times(m, x.topk) + j;
    Dot(Apply(x.experts[x.ids[t]].w3, x.hidden[m]), x.experts[x.ids[t]].w2[c]) * x.weights[t]
  }

  /** The layer without a gate: the weighted sum of `W2(W3 x)`. */
  function Ungated(x: Layer, m: nat, c: nat, upTo: nat): real
    requires LayerShaped(x) && m < |x.hidden| && upTo <= x.topk && c < x.size
  {
    if upTo == 0 then 0.0 else Ungated(x, m, c, upTo - 1) + UngatedAt(x, m, upTo - 1, c)
  }

  lemma OpenActivation(silu: real -> real, e: Expert, row: seq<real>, hidden: nat, inner: nat)
    requires ExpertShaped(e, hidden, inner) && |row| == hidden && forall y: real :: silu(y) == 1.0
    ensures Activation(silu, e, row, hidden, inner) == Apply(e.w3, row)
  {
    var a := Activation(silu, e, row, hidden, inner);
    forall i | 0 <= i < inner
      ensures a[i] == Dot(row, e.w3[i])
    {
      assert silu(Dot(row, e.w1[i])) == 1.0;
    }
  }

  lemma OpenPlace(silu: real -> real, x: Layer, m: nat, j: nat, c: nat)
    requires LayerShaped(x) && m < |x.hidden| && j < x.topk && c < x.size && forall y: real :: silu(y) == 1.0
    ensures Routed(silu, x, m, j, c) == UngatedAt(x, m, j, c)
  {
    TimesGrows(m + 1, |x.hidden|, x.topk);
    OpenActivation(silu, x.experts[x.ids[Times(m, x.topk) + j]], x.hidden[m], x.size, x.inner);
  }

  /** A gate that is always open leaves the third matrix, not the first. */
  lemma {:induction false} OpenGate(silu: real -> real, x: Layer, m: nat, c: nat, upTo: nat)
    requires LayerShaped(x) && m < |x.hidden| && upTo <= x.topk && c < x.size
    requires forall y: real :: silu(y) == 1.0
    ensures MixtureOf(silu, x, m, c, upTo) == Ungated(x, m, c, upTo)
  {
    if upTo > 0 {
      OpenGate(silu, x, m, c, upTo - 1);
      OpenPlace(silu, x, m, upTo - 1, c);
      MixtureGrows(silu, x, m, c, upTo - 1, UngatedAt(x, m, upTo - 1, c));
    }
  }

  ghost predicate AddUp(a: seq<seq<real>>, b: seq<seq<real>>, s: seq<seq<real>>) {
    && |a| == |b| == |s| && forall r :: 0 <= r < |s| ==> RowsAddUp(a[r], b[r], s[r])
  }

  ghost predicate RowsAddUp(a: seq<real>, b: seq<real>, s: seq<real>) {
    |a| == |b| == |s| && forall i :: 0 <= i < |s| ==> s[i] == a[i] + b[i]
  }

  lemma {:induction false} DotAdds(a: seq<real>, b: seq<real>, s: seq<real>, y: seq<real>)
    requires RowsAddUp(a, b, s) && |y| == |s|
    ensures Dot(s, y) == Dot(a, y) + Dot(b, y) && Dot(y, s) == Dot(y, a) + Dot(y, b)
  {
    if s != [] {
      var n := |s| - 1;
      DotAdds(a[..n], b[..n], s[..n], y[..n]);
      assert (a[n] + b[n]) * y[n] == a[n] * y[n] + b[n] * y[n];
    }
  }

  /** The same expert with the third matrix split into two summands. */
  ghost predicate SplitExpert(a: Expert, b: Expert, e: Expert) {
    a.w1 == b.w1 == e.w1 && a.w2 == b.w2 == e.w2 && AddUp(a.w3, b.w3, e.w3)
  }

  lemma ExpertAdds(silu: real -> real, a: Expert, b: Expert, e: Expert, row: seq<real>, weight: real, c: nat,
                   hidden: nat, inner: nat)
    requires ExpertShaped(e, hidden, inner) && ExpertShaped(a, hidden, inner) && ExpertShaped(b, hidden, inner)
    requires |row| == hidden && c < hidden && SplitExpert(a, b, e)
    ensures Contribution(silu, e, row, weight, c, hidden, inner)
         == Contribution(silu, a, row, weight, c, hidden, inner) + Contribution(silu, b, row, weight, c, hidden, inner)
  {
    var sa, sb := Activation(silu, a, row, hidden, inner), Activation(silu, b, row, hidden, inner);
    var s := Activation(silu, e, row, hidden, inner);
    forall i | 0 <= i < inner
      ensures s[i] == sa[i] + sb[i]
    {
      assert RowsAddUp(a.w3[i], b.w3[i], e.w3[i]);
      DotAdds(a.w3[i], b.w3[i], e.w3[i], row);
      Distribute(silu(Dot(row, e.w1[i])), Dot(row, a.w3[i]), Dot(row, b.w3[i]));
    }
    DotAdds(sa, sb, s, e.w2[c]);
    Distribute(weight, Dot(sa, e.w2[c]), Dot(sb, e.w2[c]));
  }

  /** The same layer with the third matrix of every expert split into two summands. */
  ghost predicate SplitLayer(a: Layer, b: Layer, x: Layer) {
    && a.hidden == b.hidden == x.hidden && a.ids == b.ids == x.ids && a.weights == b.weights == x.weights
    && a.topk == b.topk == x.topk && a.size == b.size == x.size && a.inner == b.inner == x.inner
    && |a.experts| == |b.experts| == |x.experts|
    && forall e :: 0 <= e < |x.experts| ==> SplitExpert(a.experts[e], b.experts[e], x.experts[e])
  }

  lemma PlaceAdds(silu: real -> real, a: Layer, b: Layer, x: Layer, m: nat, j: nat, c: nat)
    requires LayerShaped(a) && LayerShaped(b) && LayerShaped(x) && SplitLayer(a, b, x)
    requires m < |x.hidden| && j < x.topk && c < x.size
    ensures Routed(silu, x, m, j, c) == Routed(silu, a, m, j, c) + Routed(silu, b, m, j, c)
  {
    TimesGrows(m + 1, |x.hidden|, x.topk);
    var t := Times(m, x.topk) + j;
    ExpertAdds(silu, a.experts[x.ids[t]], b.experts[x.ids[t]], x.experts[x.ids[t]], x.hidden[m], x.weights[t], c,
      x.size, x.inner);
  }

  /** The output is additive in the matrix that is gated. */
  lemma {:induction false} MixtureAdds(silu: real -> real, a: Layer, b: Layer, x: Layer, m: nat, c: nat, upTo: nat)
    requires LayerShaped(a) && LayerShaped(b) && LayerShaped(x) && SplitLayer(a, b, x)
    requires m < |x.hidden| && upTo <= x.topk && c < x.size
    ensures MixtureOf(silu, x, m, c, upTo) == MixtureOf(silu, a, m, c, upTo) + MixtureOf(silu, b, m, c, upTo)
  {
    if upTo > 0 {
      MixtureAdds(silu, a, b, x, m, c, upTo - 1);
      PlaceAdds(silu, a, b, x, m, upTo - 1, c);
      MixtureGrows(silu, x, m, c, upTo - 1, Routed(silu, x, m, upTo - 1, c));
      MixtureGrows(silu, a, m, c, upTo - 1, Routed(silu, a, m, upTo - 1, c));
      MixtureGrows(silu, b, m, c, upTo - 1, Routed(silu, b, m, upTo - 1, c));
    }
  }

  /**
   Output `c` of token `m`, written out; without anything to gate it is zero, and with an open gate the weighted sum of
   `W2(W3 x)`.
  */
  ghost predicate PlainlyRight(silu: real -> real, x: Layer, m: nat, c: nat, y: real)
    requires LayerShaped(x) && m < |x.hidden| && c < x.size
  {
    && y == PlainOutput(silu, x, m, c)
    && ((forall e :: 0 <= e < |x.experts| ==> AllZero(x.experts[e].w3)) ==> y == 0.0)
    && ((forall v: real :: silu(v) == 1.0) ==> y == Ungated(x, m, c, x.topk))
  }

  lemma MixtureIsRight(silu: real -> real, x: Layer, m: nat, c: nat)
    requires LayerShaped(x) && m < |x.hidden| && c < x.size
    ensures PlainlyRight(silu, x, m, c, MixtureOf(silu, x, m, c, x.topk))
  {
    MixtureIsPlain(silu, x, m, c, x.topk);
    if forall e :: 0 <= e < |x.experts| ==> AllZero(x.experts[e].w3) {
      NothingGated(silu, x, m, c, x.topk);
    }
    if forall y: real :: silu(y) == 1.0 {
      OpenGate(silu, x, m, c, x.topk);
    }
  }

  // ---------------------------------------------------------------------------------------- the two launches

  /** Sizes of the tiles: smaller ones when there are no more routed tokens than experts. */
  datatype Config = Config(blockM: nat, blockN: nat, blockK: nat, group: nat)

  function ConfigFor(x: Layer): (r: Config)
    ensures r.blockM > 0 && r.blockN > 0 && r.blockK > 0 && r.group > 0
  {
    if |x.ids| <= |x.experts| then Config(16, 32, 64, 1) else Config(64, 64, 32, 8)
  }

  function FirstCall(x: Layer, align: Alignment): Call {
    var g := ConfigFor(x);
    Call(x.hidden, x.pool, x.indices, 0, x.weights, x.ids, |x.experts|, align, x.inner + x.inner, x.size, x.topk, false,
         g.blockM, g.blockN, g.blockK, g.group)
  }

  function SecondCall(x: Layer, align: Alignment, cache2: seq<seq<real>>): Call {
    var g := ConfigFor(x);
    Call(cache2, x.pool, x.indices, x.size + x.size, x.weights, x.ids, |x.experts|, align, x.size, x.inner, 1, true,
         g.blockM, g.blockN, g.blockK, g.group)
  }

  /** The token that a routed token belongs to. */
  lemma TokenOf(x: Layer, t: nat)
    requires LayerShaped(x) && t < |x.ids|
    ensures Quotient(t, x.topk) < |x.hidden|
  {
    QuotientBelow(t, |x.hidden|, x.topk);
  }

  lemma FirstCallProper(x: Layer, align: Alignment)
    requires LayerFits(x) && Aligned(x.ids, |x.experts|, ConfigFor(x).blockM, align)
    ensures Proper(FirstCall(x, align))
  {
    forall t: nat {:trigger Quotient(t, x.topk)} | t < |x.ids|
      ensures Quotient(t, x.topk) < |x.hidden|
    {
      TokenOf(x, t);
    }
    forall e | 0 <= e < |x.experts|
      ensures Times(0 + (x.inner + x.inner), x.size) <= |x.pool[x.indices[e]]|
    {
      TimesSum(x.inner, x.inner, x.size);
      assert Packed(x.experts[e], x.pool[x.indices[e]], x.size, x.inner);
    }
  }

  lemma SecondCallProper(x: Layer, align: Alignment, cache2: seq<seq<real>>)
    requires LayerFits(x) && Aligned(x.ids, |x.experts|, ConfigFor(x).blockM, align) && Matrix(cache2, |x.ids|, x.inner)
    ensures Proper(SecondCall(x, align, cache2))
  {
    forall t: nat {:trigger Quotient(t, 1)} | t < |x.ids|
      ensures Quotient(t, 1) < |cache2|
    {
      QuotientByOne(t);
    }
    forall e | 0 <= e < |x.experts|
      ensures Times((x.size + x.size) + x.size, x.inner) <= |x.pool[x.indices[e]]|
    {
      TimesSum(x.size + x.size, x.size, x.inner);
      TimesSum(x.size, x.size, x.inner);
      TimesCommute(x.size, x.inner);
      assert Packed(x.experts[e], x.pool[x.indices[e]], x.size, x.inner);
    }
  }

  /** The entries of the first launch are the two products that the activation combines. */
  lemma FirstEntry(x: Layer, align: Alignment, t: nat, c: nat)
    requires LayerFits(x) && t < |x.ids| && c < x.inner + x.inner && Proper(FirstCall(x, align))
    ensures Quotient(t, x.topk) < |x.hidden|
    ensures Entry(FirstCall(x, align), t, c) == (var row, e := x.hidden[Quotient(t, x.topk)], x.experts[x.ids[t]];
              if c < x.inner then Dot(row, e.w1[c]) else Dot(row, e.w3[c - x.inner]))
  {
    TokenOf(x, t);
    FirstView(x.experts[x.ids[t]], x.pool[x.indices[x.ids[t]]], x.size, x.inner, x.hidden[Quotient(t, x.topk)], c);
  }

  lemma SecondEntry(x: Layer, align: Alignment, cache2: seq<seq<real>>, t: nat, c: nat)
    requires LayerFits(x) && t < |x.ids| && c < x.size && Matrix(cache2, |x.ids|, x.inner)
             && Proper(SecondCall(x, align, cache2))
    ensures Entry(SecondCall(x, align, cache2), t, c) == Mul(Dot(cache2[t], x.experts[x.ids[t]].w2[c]), x.weights[t])
  {
    QuotientByOne(t);
    SecondView(x.experts[x.ids[t]], x.pool[x.indices[x.ids[t]]], x.size, x.inner, cache2[t], c);
  }

  ghost predicate Activated(silu: real -> real, x: Layer, t: nat, row: seq<real>)
    requires LayerFits(x) && t < |x.ids| && Quotient(t, x.topk) < |x.hidden|
  {
    row == Activation(silu, x.experts[x.ids[t]], x.hidden[Quotient(t, x.topk)], x.size, x.inner)
  }

  /** Gates the first half of every row with the second. */
  method SiluAndMul(silu: real -> real, x: Layer, align: Alignment, cache1: array2<real>)
    returns (cache2: seq<seq<real>>)
    requires LayerFits(x) && Proper(FirstCall(x, align)) && cache1.Length0 == |x.ids|
             && cache1.Length1 == x.inner + x.inner
    requires forall t: nat, c: nat :: t < |x.ids| && c < x.inner + x.inner ==>
             cache1[t, c] == Entry(FirstCall(x, align), t, c)
    ensures Matrix(cache2, |x.ids|, x.inner)
    ensures forall t: nat :: t < |x.ids| ==> Quotient(t, x.topk) < |x.hidden| && Activated(silu, x, t, cache2[t])
  {
    cache2 := [];
    for t := 0 to |x.ids|
      invariant Matrix(cache2, t, x.inner)
      invariant forall s: nat :: s < t ==> Quotient(s, x.topk) < |x.hidden| && Activated(silu, x, s, cache2[s])
    {
      TokenOf(x, t);
      var row := GateRow(silu, x, align, cache1, t);
      cache2 := cache2 + [row];
    }
  }

  method GateRow(silu: real -> real, x: Layer, align: Alignment, cache1: array2<real>, t: nat) returns (row: seq<real>)
    requires LayerFits(x) && Proper(FirstCall(x, align)) && cache1.Length0 == |x.ids|
             && cache1.Length1 == x.inner + x.inner
    requires t < |x.ids| && Quotient(t, x.topk) < |x.hidden|
    requires forall t: nat, c: nat :: t < |x.ids| && c < x.inner + x.inner ==>
             cache1[t, c] == Entry(FirstCall(x, align), t, c)
    ensures Activated(silu, x, t, row)
  {
    row := [];
    for i := 0 to x.inner
      invariant |row| == i && forall k :: 0 <= k < i ==>
                  row[k] == Activation(silu, x.experts[x.ids[t]], x.hidden[Quotient(t, x.topk)], x.size, x.inner)[k]
    {
      FirstEntry(x, align, t, i);
      FirstEntry(x, align, t, x.inner + i);
      row := row + [Mul(silu(cache1[t, i]), cache1[t, x.inner + i])];
    }
  }

  /** The contribution of routed token `t`. */
  function RoutedAt(silu: real -> real, x: Layer, t: nat, c: nat): real
    requires LayerShaped(x) && t < |x.ids| && c < x.size
  {
    TokenOf(x, t);
    Contribution(silu, x.experts[x.ids[t]], x.hidden[Quotient(t, x.topk)], x.weights[t], c, x.size, x.inner)
  }

  lemma RoutedIs(silu: real -> real, x: Layer, m: nat, j: nat, c: nat, t: nat)
    requires LayerShaped(x) && m < |x.hidden| && j < x.topk && c < x.size && t == Times(m, x.topk) + j
    ensures t < |x.ids| && RoutedAt(silu, x, t, c) == Routed(silu, x, m, j, c)
  {
    TimesGrows(m + 1, |x.hidden|, x.topk);
    QuotientShifts(m, j, x.topk);
    assert Quotient(j, x.topk) == 0;
    assert Quotient(t, x.topk) == m;
  }

  /** After the second launch a routed token holds its contribution. */
  lemma EntryIsRouted(silu: real -> real, x: Layer, align: Alignment, cache2: seq<seq<real>>, t: nat, c: nat)
    requires LayerFits(x) && t < |x.ids| && c < x.size && Matrix(cache2, |x.ids|, x.inner)
             && Proper(SecondCall(x, align, cache2))
    requires Quotient(t, x.topk) < |x.hidden| && Activated(silu, x, t, cache2[t])
    ensures Entry(SecondCall(x, align, cache2), t, c) == RoutedAt(silu, x, t, c)
  {
    SecondEntry(x, align, cache2, t, c);
  }

  ghost predicate RoutedCells(silu: real -> real, x: Layer, cache3: array2<real>)
    requires LayerShaped(x) && cache3.Length0 == |x.ids| && cache3.Length1 == x.size
    reads cache3
  {
    forall t: nat, c: nat :: t < |x.ids| && c < x.size ==> cache3[t, c] == RoutedAt(silu, x, t, c)
  }

  /**
   The layer computes, for every token, the weighted sum over its experts, whatever alignment that meets
   the contract is used.
  */
  method StackFusedMoe(silu: real -> real, x: Layer, align: Alignment) returns (out: array2<real>)
    requires LayerFits(x) && Aligned(x.ids, |x.experts|, ConfigFor(x).blockM, align)
    ensures out.Length0 == |x.hidden| && out.Length1 == x.size
    ensures forall m: nat, c: nat :: m < |x.hidden| && c < x.size ==> out[m, c] == MixtureOf(silu, x, m, c, x.topk)
    ensures forall m: nat, c: nat :: m < |x.hidden| && c < x.size ==> PlainlyRight(silu, x, m, c, out[m, c])
  {
    var cache1 := new real[|x.ids|, x.inner + x.inner];
    FirstCallProper(x, align);
    Launch(FirstCall(x, align), cache1);
    var cache2 := SiluAndMul(silu, x, align, cache1);
    var cache3 := new real[|x.ids|, x.size];
    SecondCallProper(x, align, cache2);
    Launch(SecondCall(x, align, cache2), cache3);
    forall t: nat, c: nat | t < |x.ids| && c < x.size
      ensures cache3[t, c] == RoutedAt(silu, x, t, c)
    {
      assert Quotient(t, x.topk) < |x.hidden| && Activated(silu, x, t, cache2[t]);
      EntryIsRouted(silu, x, align, cache2, t, c);
    }
    out := SumOverExperts(silu, x, cache3);
    forall m: nat, c: nat | m < |x.hidden| && c < x.size
      ensures PlainlyRight(silu, x, m, c, MixtureOf(silu, x, m, c, x.topk))
    {
      MixtureIsRight(silu, x, m, c);
    }
  }

  method SumOverExperts(silu: real -> real, x: Layer, cache3: array2<real>) returns (out: array2<real>)
    requires LayerShaped(x) && cache3.Length0 == |x.ids| && cache3.Length1 == x.size && RoutedCells(silu, x, cache3)
    ensures fresh(out) && out.Length0 == |x.hidden| && out.Length1 == x.size
    ensures forall m: nat, c: nat :: m < |x.hidden| && c < x.size ==> out[m, c] == MixtureOf(silu, x, m, c, x.topk)
  {
    out := new real[|x.hidden|, x.size];
    for m := 0 to |x.hidden|
      invariant forall a: nat, c: nat :: a < m && c < x.size ==> out[a, c] == MixtureOf(silu, x, a, c, x.topk)
    {
      for c := 0 to x.size
        invariant forall a: nat, b: nat :: a < |x.hidden| && b < x.size && (a < m || (a == m && b < c)) ==>
                    out[a, b] == MixtureOf(silu, x, a, b, x.topk)
      {
        var sum := SumToken(silu, x, cache3, m, c);
        out[m, c] := sum;
      }
    }
  }

  method SumToken(silu: real -> real, x: Layer, cache3: array2<real>, m: nat, c: nat) returns (sum: real)
    requires LayerShaped(x) && cache3.Length0 == |x.ids| && cache3.Length1 == x.size && RoutedCells(silu, x, cache3)
    requires m < |x.hidden| && c < x.size
    ensures sum == MixtureOf(silu, x, m, c, x.topk)
  {
    sum := 0.0;
    for j := 0 to x.topk
      invariant sum == MixtureOf(silu, x, m, c, j)
    {
      var t := Times(m, x.topk) + j;
      RoutedIs(silu, x, m, j, c, t);
      var v := cache3[t, c];
      assert v == RoutedAt(silu, x, t, c);
      MixtureGrows(silu, x, m, c, j, v);
      sum := sum + v;
    }
  }
}
