/** The order Go's sort calls use here: a rank, then the larger weight first,
    then names in byte order; and the contract of sort.Slice. */
module Sorting {

  predicate LexLess(a: string, b: string) {
    if b == [] then false
    else if a == [] then true
    else if a[0] != b[0] then a[0] < b[0]
    else LexLess(a[1..], b[1..])
  }

  /** Byte order: the first difference decides, and a shorter start of the same comes first. */
  lemma {:induction false} LexIsByteOrder(a: string, b: string) returns (i: nat)
    ensures i <= |a| && i <= |b| && a[..i] == b[..i]
    ensures i == |a| || i == |b| || a[i] != b[i]
    ensures LexLess(a, b) <==> if i < |a| && i < |b| then a[i] < b[i] else |a| < |b|
  {
    i := 0;
    if a != [] && b != [] && a[0] == b[0] {
      i := LexIsByteOrder(a[1..], b[1..]);
      assert a == [a[0]] + a[1..] && b == [b[0]] + b[1..];
      i := i + 1;
    }
  }

  lemma {:induction false} LexTotal(a: string, b: string)
    ensures a == b <==> !LexLess(a, b) && !LexLess(b, a)
    ensures !(LexLess(a, b) && LexLess(b, a))
  {
    if a != [] && b != [] && a[0] == b[0] {
      LexTotal(a[1..], b[1..]);
      assert a == [a[0]] + a[1..] && b == [b[0]] + b[1..];
    }
  }

  lemma {:induction false} LexTransitive(a: string, b: string, c: string)
    requires LexLess(a, b) && LexLess(b, c)
    ensures LexLess(a, c)
  {
    if a != [] && a[0] == b[0] == c[0] {
      LexTransitive(a[1..], b[1..], c[1..]);
    }
  }

  datatype SortKey = SortKey(rank: int, weight: real, first: string, second: string, third: string)

  predicate Below(a: SortKey, b: SortKey) {
    if a.rank != b.rank then a.rank < b.rank
    else if a.weight != b.weight then a.weight > b.weight
    else if a.first != b.first then LexLess(a.first, b.first)
    else if a.second != b.second then LexLess(a.second, b.second)
    else LexLess(a.third, b.third)
  }

  lemma BelowTotal(a: SortKey, b: SortKey)
    ensures a == b <==> !Below(a, b) && !Below(b, a)
    ensures !(Below(a, b) && Below(b, a))
  {
    LexTotal(a.first, b.first);
    LexTotal(a.second, b.second);
    LexTotal(a.third, b.third);
  }

  lemma BelowTransitive(a: SortKey, b: SortKey, c: SortKey)
    requires Below(a, b) && Below(b, c)
    ensures Below(a, c)
  {
    LexTotal(a.first, b.first);
    LexTotal(b.first, c.first);
    LexTotal(a.second, b.second);
    LexTotal(b.second, c.second);
    if a.rank == b.rank == c.rank && a.weight == b.weight == c.weight {
      if a.first != b.first && b.first != c.first {
        LexTransitive(a.first, b.first, c.first);
        LexTotal(a.first, c.first);
      } else if a.first == b.first == c.first {
        if a.second != b.second && b.second != c.second {
          LexTransitive(a.second, b.second, c.second);
          LexTotal(a.second, c.second);
        } else if a.second == b.second == c.second {
          LexTransitive(a.third, b.third, c.third);
        }
      }
    }
  }

  /** Not after, which is what a sorted list promises of neighbours, is transitive too. */
  lemma NotAfterTransitive(a: SortKey, b: SortKey, c: SortKey)
    requires !Below(b, a) && !Below(c, b)
    ensures !Below(c, a)
  {
    BelowTotal(a, b);
    BelowTotal(b, c);
    BelowTotal(a, c);
    if a != b && b != c {
      BelowTransitive(a, b, c);
    }
  }

  ghost predicate InOrder<T>(xs: seq<T>, key: T -> SortKey) {
    forall i, j | 0 <= i < j < |xs| :: !Below(key(xs[j]), key(xs[i]))
  }

  /** Two lists of the same elements that start alike go on with the same elements. */
  lemma {:induction false} SamePool<T>(r: seq<T>, s: seq<T>)
    requires r != [] && s != [] && r[0] == s[0] && multiset(r) == multiset(s)
    ensures multiset(r[1..]) == multiset(s[1..])
  {
    assert r == [r[0]] + r[1..] && s == [s[0]] + s[1..];
    assert multiset(r[1..]) == multiset(r) - multiset{r[0]};
    assert multiset(s[1..]) == multiset(s) - multiset{s[0]};
  }

  /** With no two elements tied, whatever sort was used gives the same list. */
  lemma {:induction false} SortedIsUnique<T>(r: seq<T>, s: seq<T>, key: T -> SortKey)
    requires multiset(r) == multiset(s) && InOrder(r, key) && InOrder(s, key)
    requires forall x, y | x in r && y in r && key(x) == key(y) :: x == y
    ensures r == s
  {
    assert |r| == |multiset(r)| == |multiset(s)| == |s|;
    if r != [] {
      var x, y := r[0], s[0];
      assert x in multiset(s) && y in multiset(r);
      var i :| 0 <= i < |r| && r[i] == y;
      var j :| 0 <= j < |s| && s[j] == x;
      BelowTotal(key(x), key(y));
      SamePool(r, s);
      SortedIsUnique(r[1..], s[1..], key);
      assert r == [r[0]] + r[1..] && s == [s[0]] + s[1..];
    }
  }

  lemma InsertedInOrder<T>(sorted: seq<T>, n: nat, x: T, key: T -> SortKey)
    requires InOrder(sorted, key) && n <= |sorted|
    requires forall j | n <= j < |sorted| :: Below(key(x), key(sorted[j]))
    requires n > 0 ==> !Below(key(x), key(sorted[n - 1]))
    ensures InOrder(sorted[..n] + [x] + sorted[n..], key)
  {
    var r := sorted[..n] + [x] + sorted[n..];
    forall i, j | 0 <= i < j < |r| ensures !Below(key(r[j]), key(r[i])) {
      if i < n - 1 && j == n {
        NotAfterTransitive(key(sorted[i]), key(sorted[n - 1]), key(x));
      }
      if i == n {
        BelowTotal(key(x), key(r[j]));
      }
    }
  }

  method Insert<T>(sorted: seq<T>, x: T, key: T -> SortKey) returns (r: seq<T>)
    requires InOrder(sorted, key)
    ensures InOrder(r, key) && multiset(r) == multiset(sorted) + multiset{x}
  {
    var n := |sorted|;
    while n > 0 && Below(key(x), key(sorted[n - 1]))
      invariant 0 <= n <= |sorted|
      invariant forall j | n <= j < |sorted| :: Below(key(x), key(sorted[j]))
    {
      n := n - 1;
    }
    InsertedInOrder(sorted, n, x, key);
    r := sorted[..n] + [x] + sorted[n..];
    assert sorted == sorted[..n] + sorted[n..];
  }

  /** sort.Slice: the same elements, none before one it must follow; ties fall anyhow. */
  method SortBy<T>(xs: seq<T>, key: T -> SortKey) returns (r: seq<T>)
    ensures InOrder(r, key) && multiset(r) == multiset(xs)
  {
    r := [];
    for n := 0 to |xs|
      invariant InOrder(r, key) && multiset(r) == multiset(xs[..n])
    {
      r := Insert(r, xs[n], key);
      assert xs[..n + 1] == xs[..n] + [xs[n]];
    }
    assert xs[..|xs|] == xs;
  }
}
