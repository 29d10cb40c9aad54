/** The numbering of the tiles of a matrix product, in groups of rows. */
module PidMap {
  import opened Basics

  /** Tiles of the output in both directions, and how many rows of tiles are taken together. */
  datatype Grid = Grid(m: nat, n: nat, group: nat)

  predicate Proper(x: Grid) {
    x.n > 0 && x.group > 0
  }

  function GroupSize(x: Grid, id: nat): (r: nat)
    requires Times(id, x.group) <= x.m
  {
    if x.m - Times(id, x.group) < x.group then x.m - Times(id, x.group) else x.group
  }

  lemma Swap(a: nat, b: nat, c: nat)
    ensures Times(a, Times(b, c)) == Times(b, Times(a, c))
  {
    TimesAssociates(a, b, c);
    TimesAssociates(b, a, c);
    TimesCommute(a, b);
  }

  lemma Positive(n: nat, g: nat)
    requires n > 0 && g > 0
    ensures Times(n, g) > 0
  {
    TimesGrows(1, n, g);
    assert Times(1, g) == Times(0, g) + g;
  }

  /** The group of a program exists, and the program's place in it lies within the tiles of the group. */
  lemma GroupOf(x: Grid, pid: nat)
    requires Proper(x) && pid < Times(x.n, x.m)
    ensures Times(x.n, x.group) > 0
    ensures var id := Quotient(pid, Times(x.n, x.group));
            Times(id, x.group) < x.m && GroupSize(x, id) > 0
              && Remainder(pid, Times(x.n, x.group)) < Times(x.n, GroupSize(x, id))
  {
    Positive(x.n, x.group);
    var per := Times(x.n, x.group);
    var id := Quotient(pid, per);
    Digits(pid, per);
    Swap(id, x.n, x.group);
    var first := Times(id, x.group);
    if first >= x.m {
      TimesCommute(x.n, first);
      TimesCommute(x.n, x.m);
      TimesGrows(x.m, first, x.n);
      assert false;
    }
    TimesCommute(x.n, x.m);
    TimesCommute(x.n, first);
    TimesCommute(x.n, x.m - first);
    TimesSum(first, x.m - first, x.n);
  }

  function PidM(x: Grid, pid: nat): (r: nat)
    requires Proper(x) && pid < Times(x.n, x.m)
    ensures r < x.m
  {
    GroupOf(x, pid);
    var id := Quotient(pid, Times(x.n, x.group));
    Times(id, x.group) + Remainder(Remainder(pid, Times(x.n, x.group)), GroupSize(x, id))
  }

  function PidN(x: Grid, pid: nat): (r: nat)
    requires Proper(x) && pid < Times(x.n, x.m)
    ensures r < x.n
  {
    GroupOf(x, pid);
    var id := Quotient(pid, Times(x.n, x.group));
    var rest, size := Remainder(pid, Times(x.n, x.group)), GroupSize(x, id);
    Digits(rest, size);
    TimesGrows(x.n, if Quotient(rest, size) < x.n then x.n else Quotient(rest, size), size);
    Quotient(rest, size)
  }

  /** The program that computes a tile. */
  function PidOf(x: Grid, pm: nat, pn: nat): nat
    requires Proper(x) && pm < x.m && pn < x.n
  {
    var id := Quotient(pm, x.group);
    Times(id, Times(x.n, x.group)) + Times(pn, GroupSize(x, id)) + (pm - Times(id, x.group))
  }

  lemma PlaceInGroup(x: Grid, pm: nat, pn: nat)
    requires Proper(x) && pm < x.m && pn < x.n
    ensures var id := Quotient(pm, x.group); var size := GroupSize(x, id);
            && pm - Times(id, x.group) < size
              && Times(pn, size) + (pm - Times(id, x.group)) < Times(x.n, size) <= Times(x.n, x.group)
            && Times(id, Times(x.n, x.group)) + Times(x.n, size) <= Times(x.n, x.m)
  {
    var id := Quotient(pm, x.group);
    var size, first := GroupSize(x, id), Times(id, x.group);
    TimesGrows(pn + 1, x.n, size);
    TimesCommute(x.n, size);
    TimesCommute(x.n, x.group);
    TimesGrows(size, x.group, x.n);
    Swap(id, x.n, x.group);
    TimesCommute(x.n, first);
    TimesCommute(x.n, x.m);
    TimesSum(first, size, x.n);
    TimesGrows(first + size, x.m, x.n);
  }

  /** The grouped numbering meets every tile exactly once, a short last group included. */
  lemma TileHasPid(x: Grid, pm: nat, pn: nat)
    requires Proper(x) && pm < x.m && pn < x.n
    ensures PidOf(x, pm, pn) < Times(x.n, x.m)
    ensures PidM(x, PidOf(x, pm, pn)) == pm && PidN(x, PidOf(x, pm, pn)) == pn
  {
    var id := Quotient(pm, x.group);
    var size, first, per := GroupSize(x, id), Times(id, x.group), Times(x.n, x.group);
    PlaceInGroup(x, pm, pn);
    Positive(x.n, x.group);
    var pid, rest := PidOf(x, pm, pn), Times(pn, size) + (pm - first);
    Digits(pid, per);
    SameOffset(Quotient(pid, per), Remainder(pid, per), id, rest, per);
    Digits(rest, size);
    SameOffset(Quotient(rest, size), Remainder(rest, size), pn, pm - first, size);
  }

  lemma PidHasTile(x: Grid, pid: nat)
    requires Proper(x) && pid < Times(x.n, x.m)
    ensures PidOf(x, PidM(x, pid), PidN(x, pid)) == pid
  {
    GroupOf(x, pid);
    var per := Times(x.n, x.group);
    var id, rest := Quotient(pid, per), Remainder(pid, per);
    var size := GroupSize(x, id);
    Digits(pid, per);
    Digits(rest, size);
    var pm := PidM(x, pid);
    Digits(pm, x.group);
    SameOffset(Quotient(pm, x.group), Remainder(pm, x.group), id, Remainder(rest, size), x.group);
  }
}
