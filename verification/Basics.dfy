/** Small shared vocabulary. */
module Basics {

  datatype Option<+T> = None | Some(value: T) {
    function GetOr(default: T): T {
      if Some? then value else default
    }
  }

  /** `dst` with the elements from position `lo` on overwritten by `src`: a slice copy. */
  function Blit<T>(dst: seq<T>, lo: nat, src: seq<T>): (r: seq<T>)
    requires lo + |src| <= |dst|
    ensures |r| == |dst|
    ensures forall x :: lo <= x < lo + |src| ==> r[x] == src[x - lo]
    ensures forall x :: 0 <= x < |dst| && !(lo <= x < lo + |src|) ==> r[x] == dst[x]
  {
    dst[..lo] + src + dst[lo + |src|..]
  }

  /** The product by repeated addition; unlike `*` it keeps large proofs in linear arithmetic. */
  function Times(a: nat, b: nat): (r: nat) {
    if a == 0 then 0 else Times(a - 1, b) + b
  }

  lemma {:induction false} TimesIsProduct(a: nat, b: nat)
    ensures Times(a, b) == a * b
  {
    if a > 0 {
      TimesIsProduct(a - 1, b);
      assert (a - 1) * b + b == a * b;
    }
  }

  lemma TimesCommute(a: nat, b: nat)
    ensures Times(a, b) == Times(b, a)
  {
    TimesIsProduct(a, b);
    TimesIsProduct(b, a);
  }

  lemma {:induction false} TimesGrows(a: nat, c: nat, b: nat)
    requires a <= c
    ensures Times(a, b) <= Times(c, b)
  {
    if a < c {
      TimesGrows(a, c - 1, b);
    }
  }

  lemma {:induction false} TimesSum(a: nat, c: nat, b: nat)
    ensures Times(a + c, b) == Times(a, b) + Times(c, b)
  {
    if c > 0 {
      TimesSum(a, c - 1, b);
    }
  }

  /** The integer quotient by repeated subtraction, for the same reason. */
  function Quotient(p: nat, n: nat): (r: nat)
    requires n > 0
    ensures Times(r, n) <= p < Times(r, n) + n
  {
    if p < n then 0 else Quotient(p - n, n) + 1
  }

  lemma {:induction false} DivMod(m: nat, i: nat, k: nat)
    requires k < m
    ensures (i * m + k) / m == i && (i * m + k) % m == k
  {
    var q, r := (i * m + k) / m, (i * m + k) % m;
    AtLeastOnce(i - q, m);
    AtLeastOnce(q - i, m);
    assert (i - q) * m == r - k;
  }

  lemma AtLeastOnce(d: int, m: nat)
    ensures d >= 1 ==> d * m >= m
    ensures (-d) * m == -(d * m)
  {
    if d >= 1 {
      assert d * m == (d - 1) * m + m;
    }
  }

  lemma QuotientIsDivision(p: nat, n: nat)
    requires n > 0
    ensures Quotient(p, n) == p / n
  {
    var q := Quotient(p, n);
    TimesIsProduct(q, n);
    DivMod(n, q, p - q * n);
  }

  function Remainder(p: nat, n: nat): (r: nat)
    requires n > 0
    ensures r < n
  {
    if p < n then p else Remainder(p - n, n)
  }

  /** Quotient and remainder make up the number, and are the only ones that do. */
  lemma {:induction false} Digits(p: nat, n: nat)
    requires n > 0
    ensures p == Times(Quotient(p, n), n) + Remainder(p, n)
  {
    if p >= n {
      Digits(p - n, n);
    }
  }

  lemma RemainderIsModulo(p: nat, n: nat)
    requires n > 0
    ensures Remainder(p, n) == p % n
  {
    Digits(p, n);
    TimesIsProduct(Quotient(p, n), n);
    DivMod(n, Quotient(p, n), Remainder(p, n));
  }

  lemma SameOffset(i: nat, j: nat, i1: nat, j1: nat, n: nat)
    requires j < n && j1 < n && Times(i, n) + j == Times(i1, n) + j1
    ensures i == i1 && j == j1
  {
    TimesGrows(i + 1, if i < i1 then i1 else i + 1, n);
    TimesGrows(i1 + 1, if i1 < i then i else i1 + 1, n);
  }

  lemma {:induction false} TimesAssociates(a: nat, b: nat, c: nat)
    ensures Times(a, Times(b, c)) == Times(Times(a, b), c)
  {
    if a > 0 {
      TimesAssociates(a - 1, b, c);
      TimesSum(Times(a - 1, b), b, c);
    }
  }

  /** Whole multiples come out of a quotient. */
  lemma QuotientShifts(a: nat, q: nat, block: nat)
    requires block > 0
    ensures Quotient(Times(a, block) + q, block) == a + Quotient(q, block)
  {
    Digits(q, block);
    Digits(Times(a, block) + q, block);
    TimesSum(a, Quotient(q, block), block);
    SameOffset(a + Quotient(q, block), Remainder(q, block), Quotient(Times(a, block) + q, block),
      Remainder(Times(a, block) + q, block), block);
  }

  /** A place among `n` blocks lies in one of them. */
  lemma QuotientBelow(q: nat, blocks: nat, block: nat)
    requires block > 0 && q < Times(blocks, block)
    ensures Quotient(q, block) < blocks
  {
    TimesGrows(blocks, if Quotient(q, block) < blocks then blocks else Quotient(q, block), block);
  }

  /** Blocks needed for `count` places, rounded up. */
  function Blocks(count: nat, block: nat): (r: nat)
    requires block > 0
    ensures count <= Times(r, block) <= count + block - 1 && r <= count
  {
    Digits(count + block - 1, block);
    var r := Quotient(count + block - 1, block);
    BlocksBound(count, block, r);
    r
  }

  lemma BlocksBound(count: nat, block: nat, r: nat)
    requires block > 0 && Times(r, block) <= count + block - 1
    ensures r <= count
  {
    AtLeastCount(count, block);
    TimesGrows(count + 1, if r > count then r else count + 1, block);
  }

  lemma {:induction false} AtLeastCount(count: nat, block: nat)
    requires block > 0
    ensures count <= Times(count, block)
  {
    if count > 0 {
      AtLeastCount(count - 1, block);
    }
  }

  lemma {:induction false} QuotientByOne(p: nat)
    ensures Quotient(p, 1) == p && Remainder(p, 1) == 0
  {
    if p > 0 {
      QuotientByOne(p - 1);
    }
  }

  /** The product of two vectors. */
  function Dot(a: seq<real>, b: seq<real>): real
    requires |a| == |b|
  {
    if a == [] then 0.0 else Dot(a[..|a| - 1], b[..|b| - 1]) + a[|a| - 1] * b[|b| - 1]
  }

  function Nth<T>(s: seq<T>, i: nat, default: T): T {
    if i < |s| then s[i] else default
  }

  function SumOf(f: nat -> real, n: nat): real {
    if n == 0 then 0.0 else SumOf(f, n - 1) + f(n - 1)
  }

  lemma {:induction false} SumsEqual(f: nat -> real, g: nat -> real, n: nat)
    requires forall i: nat :: i < n ==> f(i) == g(i)
    ensures SumOf(f, n) == SumOf(g, n)
  {
    if n > 0 {
      SumsEqual(f, g, n - 1);
    }
  }

  /** The products that `Dot` adds up. */
  function Terms(a: seq<real>, b: seq<real>): nat -> real {
    (i: nat) => Nth(a, i, 0.0) * Nth(b, i, 0.0)
  }

  lemma {:induction false} DotIsSum(a: seq<real>, b: seq<real>, n: nat)
    requires n <= |a| == |b|
    ensures Dot(a[..n], b[..n]) == SumOf(Terms(a, b), n)
  {
    if n > 0 {
      DotIsSum(a, b, n - 1);
      assert a[..n][..n - 1] == a[..n - 1] && b[..n][..n - 1] == b[..n - 1];
    }
  }

  /** The real product, by name; that keeps equalities between products easy to see. */
  function Mul(a: real, b: real): real {
    a * b
  }

  lemma Distribute(a: real, x: real, y: real)
    ensures Mul(a, x + y) == Mul(a, x) + Mul(a, y)
    ensures Mul(x + y, a) == Mul(x, a) + Mul(y, a)
  {
  }

  lemma AnyOf<T>(b: set<T>) returns (s: T)
    requires b != {}
    ensures s in b
  {
    s :| s in b;
  }

  /** A set of numbers from a range of `n` has at most `n` elements. */
  lemma {:induction false} WithinRange(base: int, n: nat, b: set<int>)
    requires forall s :: s in b ==> base <= s < base + n
    ensures |b| <= n
  {
    if n == 0 {
      if b != {} {
        var s := AnyOf(b);
      }
    } else {
      WithinRange(base, n - 1, b - {base + n - 1});
    }
  }
}
