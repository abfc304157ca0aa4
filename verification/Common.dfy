/** Small vocabulary shared by the modules of this project. */
module Options {
  datatype Option<+T> = None | Some(value: T)
}

module Numbers {
  function Min(a: int, b: int): int { if a <= b then a else b }
  function Max(a: int, b: int): int { if a >= b then a else b }
}

/** Sums over finite maps. A Go `for k, v := range m` visits the keys in an
    arbitrary order, so a sum over a map must not depend on that order:
    AddAny says that any key may be taken first. */
module Sums {

  ghost function Total<K>(m: map<K, int>): int
    decreases |m|
  {
    if m == map[] then 0
    else
      var k :| k in m;
      m[k] + Total(m - {k})
  }

  /** Whichever key is visited first, the sum is the same. */
  lemma {:induction false} AddAny<K>(m: map<K, int>, k: K)
    requires k in m
    ensures Total(m) == m[k] + Total(m - {k})
    decreases |m|
  {
    var c :| c in m && Total(m) == m[c] + Total(m - {c});
    if c != k {
      AddAny(m - {c}, k);
      AddAny(m - {k}, c);
      assert m - {c} - {k} == m - {k} - {c};
    }
  }

  /** One more under a key, as Go's m[k]++. */
  function Bump<K>(m: map<K, int>, k: K): map<K, int> {
    m[k := (if k in m then m[k] else 0) + 1]
  }

  /** Bumping one key moves the sum by exactly that bump. */
  lemma Bumped<K>(m: map<K, int>, k: K, d: int)
    ensures Total(m[k := (if k in m then m[k] else 0) + d]) == Total(m) + d
  {
    var b := m[k := (if k in m then m[k] else 0) + d];
    AddAny(b, k);
    assert b - {k} == m - {k};
    if k in m {
      AddAny(m, k);
    } else {
      assert m - {k} == m;
    }
  }

  ghost function RealTotal<K>(m: map<K, real>): real
    decreases |m|
  {
    if m == map[] then 0.0
    else
      var k :| k in m;
      m[k] + RealTotal(m - {k})
  }

  lemma {:induction false} RealAddAny<K>(m: map<K, real>, k: K)
    requires k in m
    ensures RealTotal(m) == m[k] + RealTotal(m - {k})
    decreases |m|
  {
    var c :| c in m && RealTotal(m) == m[c] + RealTotal(m - {c});
    if c != k {
      RealAddAny(m - {c}, k);
      RealAddAny(m - {k}, c);
      assert m - {c} - {k} == m - {k} - {c};
    }
  }

  /** More under a key, as Go's m[k] += d. */
  function RealBump<K>(m: map<K, real>, k: K, d: real): map<K, real> {
    m[k := (if k in m then m[k] else 0.0) + d]
  }

  lemma RealBumped<K>(m: map<K, real>, k: K, d: real)
    ensures RealTotal(RealBump(m, k, d)) == RealTotal(m) + d
  {
    var b := RealBump(m, k, d);
    RealAddAny(b, k);
    assert b - {k} == m - {k};
    if k in m {
      RealAddAny(m, k);
    } else {
      assert m - {k} == m;
    }
  }
}

/** Lists with some elements left out, and what of them does not depend on order. */
module Filters {

  function Filter<T>(xs: seq<T>, keep: T -> bool): (r: seq<T>)
    ensures forall x | x in r :: x in xs && keep(x)
    ensures forall x | x in xs && keep(x) :: x in r
  {
    if xs == [] then []
    else
      var n := |xs| - 1;
      assert xs == xs[..n] + [xs[n]];
      Filter(xs[..n], keep) + if keep(xs[n]) then [xs[n]] else []
  }

  lemma FilterNext<T>(xs: seq<T>, n: nat, keep: T -> bool)
    requires n < |xs|
    ensures Filter(xs[..n + 1], keep) == Filter(xs[..n], keep) + if keep(xs[n]) then [xs[n]] else []
  {
    assert xs[..n + 1][..n] == xs[..n];
  }

  /** Positions of a list, each at most once and in its order. */
  ghost predicate Rising(from: seq<nat>, n: nat) {
    && (forall k | 0 <= k < |from| :: from[k] < n)
    && forall j, k | 0 <= j < k < |from| :: from[j] < from[k]
  }

  /** Where the kept elements stand. */
  ghost function Positions<T>(xs: seq<T>, keep: T -> bool): (from: seq<nat>)
    ensures Rising(from, |xs|)
    ensures forall i | 0 <= i < |xs| :: i in from <==> keep(xs[i])
  {
    if xs == [] then []
    else
      var n := |xs| - 1;
      var before := Positions(xs[..n], keep);
      assert forall i | 0 <= i < n :: xs[..n][i] == xs[i];
      if keep(xs[n]) then before + [n] else before
  }

  /** A filtered list is the list read at those positions. */
  lemma {:induction false} FilterByPosition<T>(xs: seq<T>, keep: T -> bool)
    ensures var from, r := Positions(xs, keep), Filter(xs, keep);
            |from| == |r| && forall k | 0 <= k < |r| :: r[k] == xs[from[k]]
  {
    if xs != [] {
      FilterByPosition(xs[..|xs| - 1], keep);
    }
  }

  lemma {:induction false} FilterCounts<T>(xs: seq<T>, keep: T -> bool, x: T)
    ensures multiset(Filter(xs, keep))[x] == if keep(x) then multiset(xs)[x] else 0
  {
    if xs != [] {
      var n := |xs| - 1;
      FilterCounts(xs[..n], keep, x);
      assert xs == xs[..n] + [xs[n]];
    }
  }

  /** A filtered list has the same elements, as often, whatever the order of the list. */
  lemma FilterOrderFree<T(!new)>(xs: seq<T>, ys: seq<T>, keep: T -> bool)
    requires multiset(xs) == multiset(ys)
    ensures multiset(Filter(xs, keep)) == multiset(Filter(ys, keep))
    ensures |Filter(xs, keep)| == |Filter(ys, keep)|
  {
    var a, b := Filter(xs, keep), Filter(ys, keep);
    forall x ensures multiset(a)[x] == multiset(b)[x] {
      FilterCounts(xs, keep, x);
      FilterCounts(ys, keep, x);
    }
    SameLength(a, b);
  }

  lemma SameLength<T>(a: seq<T>, b: seq<T>)
    requires multiset(a) == multiset(b)
    ensures |a| == |b|
  {
    assert |a| == |multiset(a)|;
  }

  /** What stands before the first separator, and what after it. */
  lemma SplitAt(a: string, x: string, b: string, y: string, c: char)
    requires c !in a && c !in b && a + ([c] + x) == b + ([c] + y)
    ensures a == b && x == y
  {
    var s, t := a + ([c] + x), b + ([c] + y);
    assert |a| == |b| by {
      assert s[|a|] == c && t[|b|] == c;
      assert forall i | 0 <= i < |a| :: s[i] == a[i];
      assert forall i | 0 <= i < |b| :: t[i] == b[i];
    }
    assert a == s[..|a|] && b == t[..|b|];
    assert x == s[|a| + 1..] && y == t[|b| + 1..];
  }

  lemma Associative<T>(a: seq<T>, b: seq<T>, c: seq<T>)
    ensures (a + b) + c == a + (b + c)
  {
  }

  /** Only what keep says of the list's own elements matters. */
  lemma {:induction false} FilterAgrees<T>(xs: seq<T>, p: T -> bool, q: T -> bool)
    requires forall x | x in xs :: p(x) == q(x)
    ensures Filter(xs, p) == Filter(xs, q)
  {
    if xs != [] {
      assert forall x | x in xs[..|xs| - 1] :: x in xs;
      FilterAgrees(xs[..|xs| - 1], p, q);
    }
  }

  lemma {:induction false} FilterConcat<T>(xs: seq<T>, ys: seq<T>, keep: T -> bool)
    ensures Filter(xs + ys, keep) == Filter(xs, keep) + Filter(ys, keep)
  {
    if ys == [] {
      assert xs + ys == xs;
    } else {
      var n := |ys| - 1;
      var last := if keep(ys[n]) then [ys[n]] else [];
      FilterConcat(xs, ys[..n], keep);
      assert (xs + ys)[..|xs + ys| - 1] == xs + ys[..n];
      assert Filter(xs + ys, keep) == Filter(xs + ys[..n], keep) + last;
      Associative(Filter(xs, keep), Filter(ys[..n], keep), last);
    }
  }

  lemma {:induction false} FilterAll<T>(s: seq<T>, keep: T -> bool)
    ensures |Filter(s, keep)| <= |s|
    ensures (forall x | x in s :: keep(x)) ==> Filter(s, keep) == s
  {
    if s != [] {
      FilterAll(s[..|s| - 1], keep);
    }
  }

  /** A part as large as the whole is the whole. */
  lemma WholePart<T>(a: multiset<T>, b: multiset<T>)
    requires a <= b && |a| == |b|
    ensures a == b
  {
    assert b == a + (b - a);
  }

  /** A list holding what a set holds, as often, holds each once. */
  lemma OnceEach<T(!new)>(xs: seq<T>, pool: set<T>)
    requires multiset(xs) == multiset(pool)
    ensures forall i, j | 0 <= i < j < |xs| :: xs[i] != xs[j]
    ensures forall x :: x in xs <==> x in pool
  {
    forall i, j | 0 <= i < j < |xs| ensures xs[i] != xs[j] {
      assert xs == xs[..j] + xs[j..];
      assert xs[i] in xs[..j] && xs[j] in xs[j..];
      assert multiset(xs)[xs[i]] <= 1;
    }
    forall x ensures x in xs <==> x in pool {
      assert x in xs <==> x in multiset(xs);
    }
  }

  /** Two filters that cannot both keep an element never keep more than there is. */
  lemma {:induction false} ApartFilters<T>(xs: seq<T>, p: T -> bool, q: T -> bool)
    requires forall x | x in xs :: !(p(x) && q(x))
    ensures |Filter(xs, p)| + |Filter(xs, q)| <= |xs|
  {
    if xs != [] {
      var n := |xs| - 1;
      assert xs == xs[..n] + [xs[n]];
      ApartFilters(xs[..n], p, q);
    }
  }
}
