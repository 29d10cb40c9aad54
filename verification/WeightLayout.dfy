/**
 Where expert weights live: the GPU cache holds the resident experts of every layer followed by two
 pages, and a page (as well as the pinned relay buffer) is cut into one slot per micro-batch.
*/
module WeightLayout {
  import opened Basics
  import opened Network

  /** First expert slot of a page of the double buffer. */
  function PageStart(z: Sizes, page: nat): (r: nat)
    requires z.Valid() && page < 2
  {
    z.CacheSize() - 2 * z.PageSize() + if page == 0 then 0 else z.PageSize()
  }

  /** First row of a page, computed in rows. */
  function PageStartRow(z: Sizes, page: nat): (r: nat)
    requires z.Valid() && page < 2
  {
    z.CacheRows() - 2 * z.PageRows() + if page == 0 then 0 else z.PageRows()
  }

  /** Rows moved for a slot other than the last. */
  function SlotRows(z: Sizes, slots: nat): nat
    requires z.Valid() && slots > 0
  {
    Quotient(z.PageRows(), slots)
  }

  function SlotStart(z: Sizes, slots: nat, s: nat): nat
    requires z.Valid() && slots > 0
  {
    Times(s, SlotRows(z, slots))
  }

  /** The last slot also takes the rows left over by the division. */
  function SlotEnd(z: Sizes, slots: nat, s: nat): nat
    requires z.Valid() && slots > 0
  {
    if s == slots - 1 then z.PageRows() else SlotStart(z, slots, s) + SlotRows(z, slots)
  }

  /** Addressing by expert slot and by row agree. */
  lemma RowsOfSlots(z: Sizes, page: nat)
    requires z.Valid() && page < 2
    ensures Times(z.CacheSize(), z.unit) == z.CacheRows()
    ensures Times(PageStart(z, page), z.unit) == PageStartRow(z, page)
  {
    var lr, ps, u := Times(z.layers, z.resident), z.PageSize(), z.unit;
    TimesAssociates(z.layers, z.resident, u);
    TimesSum(lr, ps, u);
    TimesSum(lr + ps, ps, u);
  }

  lemma SlotBounds(z: Sizes, slots: nat, s: nat)
    requires z.Valid() && s < slots
    ensures SlotStart(z, slots, 0) == 0 && SlotEnd(z, slots, slots - 1) == z.PageRows()
    ensures SlotStart(z, slots, s) <= SlotEnd(z, slots, s) <= z.PageRows()
    ensures s + 1 < slots ==> SlotEnd(z, slots, s) == SlotStart(z, slots, s + 1)
  {
    TimesCommute(slots, SlotRows(z, slots));
    TimesGrows(s + 1, slots, SlotRows(z, slots));
  }

  /** The slots tile a page: every row is in exactly one of them. */
  lemma {:induction false} SlotsTilePage(z: Sizes, slots: nat, x: nat, n: nat)
    requires z.Valid() && 0 < n <= slots && x < SlotEnd(z, slots, n - 1)
    ensures exists s :: 0 <= s < n && SlotStart(z, slots, s) <= x < SlotEnd(z, slots, s)
    ensures forall s, t :: (0 <= s < n && 0 <= t < n
              && SlotStart(z, slots, s) <= x < SlotEnd(z, slots, s)
              && SlotStart(z, slots, t) <= x < SlotEnd(z, slots, t)) ==> s == t
  {
    SlotBounds(z, slots, n - 1);
    if n > 1 {
      SlotBounds(z, slots, n - 2);
      if x < SlotEnd(z, slots, n - 2) {
        SlotsTilePage(z, slots, x, n - 1);
      } else {
        forall s | 0 <= s < n - 1
          ensures SlotEnd(z, slots, s) <= SlotStart(z, slots, n - 1)
        {
          TimesGrows(s + 1, n - 1, SlotRows(z, slots));
        }
      }
    }
  }

  /** `n` rows of `layer`, from its row `from` on, stand in `cache` at position `at`. */
  ghost predicate Stands(cache: seq<Row>, at: int, layer: int, from: int, n: int) {
    && 0 <= at && at + n <= |cache|
    && forall y :: at <= y < at + n ==> cache[y] == Row(layer, from + (y - at))
  }

  /** The resident experts of all layers are in place. */
  ghost predicate Resident(z: Sizes, cache: seq<Row>) {
    forall i :: 0 <= i < z.layers ==> ResidentLayer(z, cache, i)
  }

  ghost predicate ResidentLayer(z: Sizes, cache: seq<Row>, i: nat) {
    Stands(cache, Times(i, z.ResidentRows()), i, 0, z.ResidentRows())
  }

  /** The first `n` rows of a page are those of the streamed experts of `layer`. */
  ghost predicate PageStands(z: Sizes, cache: seq<Row>, page: nat, layer: int, n: int)
    requires z.Valid() && page < 2
  {
    Stands(cache, PageStartRow(z, page), layer, z.ResidentRows(), n)
  }

  /** The rows a copy into [lo, hi) of a page brings for `layer`. */
  function Streamed(z: Sizes, layer: int, lo: nat, hi: nat): (r: seq<Row>)
    requires z.Valid() && lo <= hi
    ensures |r| == hi - lo
    ensures forall y :: 0 <= y < |r| ==> r[y] == Row(layer, z.ResidentRows() + lo + y)
  {
    seq(hi - lo, y => Row(layer, z.ResidentRows() + lo + y))
  }

  /** A slice copy at or behind the resident area leaves the resident experts alone. */
  lemma ResidentKept(z: Sizes, cache: seq<Row>, at: nat, src: seq<Row>)
    requires z.Valid() && Resident(z, cache)
    requires Times(z.layers, z.ResidentRows()) <= at && at + |src| <= |cache|
    ensures Resident(z, Blit(cache, at, src))
  {
    forall i | 0 <= i < z.layers
      ensures ResidentLayer(z, Blit(cache, at, src), i)
    {
      assert ResidentLayer(z, cache, i);
      TimesGrows(i + 1, z.layers, z.ResidentRows());
    }
  }

  lemma BlitExtends(cache: seq<Row>, at: nat, layer: int, from: int, lo: nat, src: seq<Row>)
    requires at + lo + |src| <= |cache|
    requires lo == 0 || Stands(cache, at, layer, from, lo)
    requires Stands(src, 0, layer, from + lo, |src|)
    ensures Stands(Blit(cache, at + lo, src), at, layer, from, lo + |src|)
  {
  }

  lemma BlitApart(cache: seq<Row>, at: nat, src: seq<Row>, a: int, layer: int, from: int, n: int)
    requires at + |src| <= |cache| && Stands(cache, a, layer, from, n)
    requires a + n <= at || at + |src| <= a
    ensures Stands(Blit(cache, at, src), a, layer, from, n)
  {
  }

  /** A copy that appends to what already stands on a page... */
  lemma PageExtended(z: Sizes, cache: seq<Row>, page: nat, layer: int, lo: nat, src: seq<Row>)
    requires z.Valid() && page < 2
    requires PageStartRow(z, page) + lo + |src| <= |cache|
    requires lo == 0 || PageStands(z, cache, page, layer, lo)
    requires Stands(src, 0, layer, z.ResidentRows() + lo, |src|)
    ensures PageStands(z, Blit(cache, PageStartRow(z, page) + lo, src), page, layer, lo + |src|)
  {
    BlitExtends(cache, PageStartRow(z, page), layer, z.ResidentRows(), lo, src);
  }

  /** ... leaves the other page alone. */
  lemma OtherPageKept(z: Sizes, cache: seq<Row>, page: nat, lo: nat, src: seq<Row>, other: int)
    requires z.Valid() && page < 2 && lo + |src| <= z.PageRows()
    requires PageStartRow(z, page) + lo + |src| <= |cache|
    requires PageStands(z, cache, 1 - page, other, z.PageRows())
    ensures PageStands(z, Blit(cache, PageStartRow(z, page) + lo, src), 1 - page, other, z.PageRows())
  {
    var p, q := PageStartRow(z, page), PageStartRow(z, 1 - page);
    assert q == if page == 0 then p + z.PageRows() else p - z.PageRows();
    BlitApart(cache, p + lo, src, q, other, z.ResidentRows(), z.PageRows());
  }

  /** A page while it is being filled: `done` rows of `layer` next to a complete page of `other`. */
  ghost predicate Filling(z: Sizes, cache: seq<Row>, page: nat, layer: int, done: nat, other: int)
    requires z.Valid() && page < 2
  {
    && |cache| == z.CacheRows() && Resident(z, cache)
    && PageStands(z, cache, page, layer, done)
    && PageStands(z, cache, 1 - page, other, z.PageRows())
  }

  /** Once a page is complete the other one can be filled. */
  lemma PageTurned(z: Sizes, cache: seq<Row>, page: nat, layer: int, next: int)
    requires z.Valid() && page < 2 && |cache| == z.CacheRows() && Resident(z, cache)
    requires PageStands(z, cache, page, layer, z.PageRows())
    ensures Filling(z, cache, 1 - page, next, 0, layer)
  {
  }

  lemma FillingMore(z: Sizes, cache: seq<Row>, page: nat, layer: int, lo: nat, src: seq<Row>, other: int)
    requires z.Valid() && page < 2 && lo + |src| <= z.PageRows()
    requires Filling(z, cache, page, layer, lo, other)
    requires Stands(src, 0, layer, z.ResidentRows() + lo, |src|)
    ensures PageStartRow(z, page) + lo + |src| <= |cache|
    ensures Filling(z, Blit(cache, PageStartRow(z, page) + lo, src), page, layer, lo + |src|, other)
  {
    assert Resident(z, Blit(cache, PageStartRow(z, page) + lo, src)) by {
      ResidentKept(z, cache, PageStartRow(z, page) + lo, src);
    }
    assert PageStands(z, Blit(cache, PageStartRow(z, page) + lo, src), page, layer, lo + |src|) by {
      PageExtended(z, cache, page, layer, lo, src);
    }
    assert PageStands(z, Blit(cache, PageStartRow(z, page) + lo, src), 1 - page, other, z.PageRows()) by {
      OtherPageKept(z, cache, page, lo, src, other);
    }
  }

  /** The index map from experts of layer `i` to slots of the GPU cache. */
  ghost predicate MapsLayer(z: Sizes, m: seq<int>, i: nat)
    requires z.Valid()
  {
    && |m| == z.experts
    && (forall e :: 0 <= e < z.resident ==> m[e] == Times(i, z.resident) + e)
    && (forall e :: z.resident <= e < z.experts ==> m[e] == PageStart(z, i % 2) + (e - z.resident))
  }

  /** No slot is wasted: the areas of the layers and the two pages make up the cache, and each slot is some expert's. */
  lemma EverySlotIsNamed(z: Sizes, m: seq<int>, i: nat, s: nat)
    requires z.Valid() && i < z.layers && MapsLayer(z, m, i)
    ensures PageStart(z, 0) == z.layers * z.resident && PageStart(z, 1) == PageStart(z, 0) + (z.experts - z.resident)
    ensures z.CacheSize() == PageStart(z, 1) + (z.experts - z.resident)
    ensures Times(i, z.resident) <= s < Times(i + 1, z.resident) ==> exists e :: 0 <= e < z.resident && m[e] == s
    ensures PageStart(z, i % 2) <= s < PageStart(z, i % 2) + z.PageSize() ==>
              exists e :: z.resident <= e < z.experts && m[e] == s
  {
    TimesIsProduct(z.layers, z.resident);
    if Times(i, z.resident) <= s < Times(i + 1, z.resident) {
      assert m[s - Times(i, z.resident)] == s;
    }
    if PageStart(z, i % 2) <= s < PageStart(z, i % 2) + z.PageSize() {
      assert m[z.resident + (s - PageStart(z, i % 2))] == s;
    }
  }

  /** The rows of the cache slot `m`, if there is one. */
  function ReadSlot(z: Sizes, cache: seq<Row>, m: int): seq<Row> {
    if m < 0 || |cache| < Times(m + 1, z.unit) then [] else cache[Times(m, z.unit) .. Times(m + 1, z.unit)]
  }

  /** What the fused kernel reads through the index map. */
  function ReadExperts(z: Sizes, cache: seq<Row>, m: seq<int>): ExpertRows {
    seq(|m|, e requires 0 <= e < |m| => ReadSlot(z, cache, m[e]))
  }

  lemma SlotReads(z: Sizes, cache: seq<Row>, m: nat, at: nat, layer: int, from: int, n: int, e: nat)
    requires Stands(cache, at, layer, from, n)
    requires at <= Times(m, z.unit) && Times(m + 1, z.unit) <= at + n
    requires from + (Times(m, z.unit) - at) == e * z.unit
    ensures ReadSlot(z, cache, m) == seq(z.unit, o => Row(layer, e * z.unit + o))
  {
  }

  lemma ReadsResident(z: Sizes, cache: seq<Row>, i: nat, e: nat)
    requires z.Valid() && e < z.resident && ResidentLayer(z, cache, i)
    ensures ReadSlot(z, cache, Times(i, z.resident) + e) == seq(z.unit, o => Row(i, e * z.unit + o))
  {
    var u, g := z.unit, z.resident;
    TimesAssociates(i, g, u);
    TimesSum(Times(i, g), e, u);
    TimesGrows(e + 1, g, u);
    TimesIsProduct(e, u);
    SlotReads(z, cache, Times(i, g) + e, Times(i, z.ResidentRows()), i, 0, z.ResidentRows(), e);
  }

  lemma ReadsStreamed(z: Sizes, cache: seq<Row>, page: nat, i: nat, e: nat)
    requires z.Valid() && page < 2 && z.resident <= e < z.experts
    requires PageStands(z, cache, page, i, z.PageRows())
    ensures ReadSlot(z, cache, PageStart(z, page) + (e - z.resident)) == seq(z.unit, o => Row(i, e * z.unit + o))
  {
    var u, g, d := z.unit, z.resident, e - z.resident;
    RowsOfSlots(z, page);
    TimesSum(PageStart(z, page), d, u);
    TimesGrows(d + 1, z.PageSize(), u);
    TimesSum(g, d, u);
    TimesIsProduct(e, u);
    SlotReads(z, cache, PageStart(z, page) + d, PageStartRow(z, page), i, z.ResidentRows(), z.PageRows(), e);
  }

  /** With residents in place and the right page filled, the kernel reads the true weights. */
  lemma ReadsTrueRows(z: Sizes, cache: seq<Row>, m: seq<int>, i: nat)
    requires z.Valid() && i < z.layers && MapsLayer(z, m, i)
    requires Resident(z, cache) && PageStands(z, cache, i % 2, i, z.PageRows())
    ensures ReadExperts(z, cache, m) == TrueRows(z, i)
  {
    forall e | 0 <= e < z.experts
      ensures ReadSlot(z, cache, m[e]) == seq(z.unit, o => Row(i, e * z.unit + o))
    {
      if e < z.resident {
        assert ResidentLayer(z, cache, i);
        ReadsResident(z, cache, i, e);
      } else {
        ReadsStreamed(z, cache, i % 2, i, e);
      }
    }
  }
}
