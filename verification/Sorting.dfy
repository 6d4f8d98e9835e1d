// Sorting by a comparator, and the orders the engine sorts by.

module Sorting {
  import opened Basics
  import opened Graphs

  ghost predicate StrictOrder<T(!new)>(less: (T, T) -> bool) {
    && (forall a :: !less(a, a))
    && (forall a, b, c :: less(a, b) && less(b, c) ==> less(a, c))
  }

  ghost predicate StrictlySorted<T>(less: (T, T) -> bool, s: seq<T>) {
    forall i, j :: 0 <= i < j < |s| ==> less(s[i], s[j])
  }

  ghost predicate Comparable<T>(less: (T, T) -> bool, s: seq<T>) {
    forall i, j :: 0 <= i < j < |s| ==> less(s[i], s[j]) || less(s[j], s[i])
  }

  function Insert<T>(less: (T, T) -> bool, x: T, s: seq<T>): (r: seq<T>)
    ensures multiset(r) == multiset(s) + multiset{x}
    ensures |r| == |s| + 1
  {
    if s == [] then [x]
    else if less(x, s[0]) then
      [x] + s
    else
      assert s == [s[0]] + s[1..];
      [s[0]] + Insert(less, x, s[1..])
  }

  function Sort<T>(less: (T, T) -> bool, s: seq<T>): (r: seq<T>)
    ensures multiset(r) == multiset(s)
    ensures |r| == |s|
  {
    if s == [] then [] else
      assert s == [s[0]] + s[1..];
      Insert(less, s[0], Sort(less, s[1..]))
  }

  lemma SameMembers<T>(a: seq<T>, b: seq<T>)
    requires multiset(a) == multiset(b)
    ensures Elements(a) == Elements(b)
    ensures |a| == |b|
  {
    forall x
      ensures x in a <==> x in b
    {
      assert x in a <==> x in multiset(a);
      assert x in b <==> x in multiset(b);
    }
    assert |a| == |multiset(a)| && |b| == |multiset(b)|;
  }

  lemma InsertMembers<T>(less: (T, T) -> bool, x: T, s: seq<T>)
    ensures forall y :: y in Insert(less, x, s) ==> y == x || y in s
  {
    hide Insert;
    forall y | y in Insert(less, x, s)
      ensures y == x || y in s
    {
      assert y in multiset(Insert(less, x, s));
      assert y == x || y in multiset(s);
    }
  }

  lemma {:induction false} InsertSorted<T(!new)>(less: (T, T) -> bool, x: T, s: seq<T>)
    requires StrictOrder(less) && StrictlySorted(less, s)
    requires forall y :: y in s ==> less(x, y) || less(y, x)
    ensures StrictlySorted(less, Insert(less, x, s))
  {
    if s == [] {
    } else if less(x, s[0]) {
    } else {
      var tail := Insert(less, x, s[1..]);
      InsertSorted(less, x, s[1..]);
      InsertMembers(less, x, s[1..]);
      assert s == [s[0]] + s[1..];
      forall y | y in tail
        ensures less(s[0], y)
      {
        assert y == x || y in s[1..];
      }
    }
  }

  lemma {:induction false} SortSorts<T(!new)>(less: (T, T) -> bool, s: seq<T>)
    requires StrictOrder(less) && Comparable(less, s)
    ensures StrictlySorted(less, Sort(less, s))
  {
    if s != [] {
      SortSorts(less, s[1..]);
      SameMembers(Sort(less, s[1..]), s[1..]);
      forall y | y in Sort(less, s[1..])
        ensures less(s[0], y) || less(y, s[0])
      {
        assert y in Elements(s[1..]);
        var i :| 0 <= i < |s[1..]| && s[1..][i] == y;
        assert s[i + 1] == y;
      }
      InsertSorted(less, s[0], Sort(less, s[1..]));
    }
  }

  lemma LeastIsFirst<T(!new)>(less: (T, T) -> bool, a: seq<T>, b: seq<T>)
    requires StrictOrder(less) && StrictlySorted(less, a) && StrictlySorted(less, b)
    requires a != [] && b != [] && a[0] in b && b[0] in a
    ensures a[0] == b[0]
  {
    var i :| 0 <= i < |b| && b[i] == a[0];
    var j :| 0 <= j < |a| && a[j] == b[0];
  }

  lemma TailMultiset<T>(a: seq<T>)
    requires a != []
    ensures multiset(a[1..]) == multiset(a) - multiset{a[0]}
  {
    assert a == [a[0]] + a[1..];
  }

  lemma SameHead<T(!new)>(less: (T, T) -> bool, a: seq<T>, b: seq<T>)
    requires StrictOrder(less) && StrictlySorted(less, a) && StrictlySorted(less, b)
    requires multiset(a) == multiset(b) && a != []
    ensures b != [] && a[0] == b[0] && multiset(a[1..]) == multiset(b[1..])
  {
    SameMembers(a, b);
    assert a[0] in Elements(b) && b[0] in Elements(a);
    LeastIsFirst(less, a, b);
    TailMultiset(a);
    TailMultiset(b);
  }

  // A collection has at most one strictly sorted arrangement.
  lemma {:induction false} SortedUnique<T(!new)>(less: (T, T) -> bool, a: seq<T>, b: seq<T>)
    requires StrictOrder(less) && StrictlySorted(less, a) && StrictlySorted(less, b)
    requires multiset(a) == multiset(b)
    ensures a == b
    decreases |a|
  {
    if a == [] {
      SameMembers(a, b);
    } else {
      SameHead(less, a, b);
      SortedUnique(less, a[1..], b[1..]);
      assert a == [a[0]] + a[1..] && b == [b[0]] + b[1..];
    }
  }

  predicate StringLess(a: string, b: string) {
    if b == [] then false
    else if a == [] then true
    else if a[0] != b[0] then a[0] < b[0]
    else StringLess(a[1..], b[1..])
  }

  lemma {:induction false} StringIrreflexive(a: string)
    ensures !StringLess(a, a)
  {
    if a != [] {
      StringIrreflexive(a[1..]);
    }
  }

  lemma {:induction false} StringTransitive(a: string, b: string, c: string)
    requires StringLess(a, b) && StringLess(b, c)
    ensures StringLess(a, c)
  {
    if a != [] && a[0] == b[0] && b[0] == c[0] {
      StringTransitive(a[1..], b[1..], c[1..]);
    }
  }

  lemma {:induction false} StringTotal(a: string, b: string)
    requires a != b
    ensures StringLess(a, b) || StringLess(b, a)
  {
    if a != [] && b != [] && a[0] == b[0] {
      assert a == [a[0]] + a[1..] && b == [b[0]] + b[1..];
      StringTotal(a[1..], b[1..]);
    }
  }

  lemma StringOrder()
    ensures StrictOrder(StringLess)
    ensures forall a, b :: a != b ==> StringLess(a, b) || StringLess(b, a)
  {
    forall a
      ensures !StringLess(a, a)
    {
      StringIrreflexive(a);
    }
    forall a, b, c | StringLess(a, b) && StringLess(b, c)
      ensures StringLess(a, c)
    {
      StringTransitive(a, b, c);
    }
    forall a, b | a != b
      ensures StringLess(a, b) || StringLess(b, a)
    {
      StringTotal(a, b);
    }
  }

  ghost predicate AgreeUpTo(a: string, b: string, k: int) {
    0 <= k <= |a| && k <= |b| && forall j :: 0 <= j < k ==> a[j] == b[j]
  }

  // Before the other string: at the first difference by the smaller character, or by ending there.
  ghost predicate Precedes(a: string, b: string) {
    exists k :: AgreeUpTo(a, b, k) && k < |b| && (k == |a| || a[k] < b[k])
  }

  lemma AgreeLater(a: string, b: string, k: int)
    requires a != "" && b != "" && a[0] == b[0]
    ensures AgreeUpTo(a[1..], b[1..], k) ==> AgreeUpTo(a, b, k + 1)
    ensures k > 0 && AgreeUpTo(a, b, k) ==> AgreeUpTo(a[1..], b[1..], k - 1)
  {
    assert forall j :: 0 < j < |a| ==> a[j] == a[1..][j - 1];
    assert forall j :: 0 < j < |b| ==> b[j] == b[1..][j - 1];
    assert k > 0 && AgreeUpTo(a, b, k) ==> forall j :: 0 <= j < k - 1 ==> a[1..][j] == a[j + 1] && b[1..][j] == b[j + 1];
  }

  lemma {:induction false} StringLessMeans(a: string, b: string)
    ensures StringLess(a, b) <==> Precedes(a, b)
  {
    assert b != "" && a == "" ==> AgreeUpTo(a, b, 0);
    if a != "" && b != "" && a[0] != b[0] {
      assert AgreeUpTo(a, b, 0);
    } else if a != "" && b != "" {
      StringLessMeans(a[1..], b[1..]);
      if k :| AgreeUpTo(a[1..], b[1..], k) && k < |b[1..]| && (k == |a[1..]| || a[1..][k] < b[1..][k]) {
        AgreeLater(a, b, k);
        assert AgreeUpTo(a, b, k + 1);
      }
      if k :| AgreeUpTo(a, b, k) && k < |b| && (k == |a| || a[k] < b[k]) {
        AgreeLater(a, b, k);
        assert AgreeUpTo(a[1..], b[1..], k - 1);
      }
    }
  }

  // Strictly in string order.
  ghost predicate InOrder(ids: seq<string>) {
    forall i, j :: 0 <= i < j < |ids| ==> Precedes(ids[i], ids[j])
  }

  lemma SortedInOrder(ids: seq<string>)
    requires StrictlySorted(StringLess, ids)
    ensures InOrder(ids)
  {
    hide StringLess, Precedes;
    forall i, j | 0 <= i < j < |ids|
      ensures Precedes(ids[i], ids[j])
    {
      StringLessMeans(ids[i], ids[j]);
    }
  }

  predicate EdgeLess(e: Edge, f: Edge) {
    StringLess(e.from, f.from) || (e.from == f.from && StringLess(e.to, f.to))
  }

  lemma EdgeOrder()
    ensures StrictOrder(EdgeLess)
    ensures forall e, f :: e != f ==> EdgeLess(e, f) || EdgeLess(f, e)
  {
    StringOrder();
  }

  lemma SortIds(s: seq<UnitId>)
    requires Distinct(s)
    ensures StrictlySorted(StringLess, Sort(StringLess, s))
  {
    StringOrder();
    SortSorts(StringLess, s);
  }

  lemma SortEdges(s: seq<Edge>)
    requires Distinct(s)
    ensures StrictlySorted(EdgeLess, Sort(EdgeLess, s))
  {
    EdgeOrder();
    SortSorts(EdgeLess, s);
  }

  lemma {:induction false} DistinctCount<T>(s: seq<T>, x: T)
    requires Distinct(s)
    ensures multiset(s)[x] == if x in s then 1 else 0
  {
    if s != [] {
      assert s == [s[0]] + s[1..];
      DistinctCount(s[1..], x);
    }
  }

  lemma DistinctMultiset<T>(a: seq<T>, b: seq<T>)
    requires Distinct(a) && Distinct(b) && Elements(a) == Elements(b)
    ensures multiset(a) == multiset(b)
  {
    forall x
      ensures multiset(a)[x] == multiset(b)[x]
    {
      DistinctCount(a, x);
      DistinctCount(b, x);
      assert x in a <==> x in Elements(a);
      assert x in b <==> x in Elements(b);
    }
  }

  // A set has at most one strictly sorted listing.
  lemma SortedListing(a: seq<UnitId>, b: seq<UnitId>)
    requires StrictlySorted(StringLess, a) && StrictlySorted(StringLess, b)
    requires Elements(a) == Elements(b)
    ensures a == b
  {
    StringOrder();
    assert Distinct(a) && Distinct(b);
    DistinctMultiset(a, b);
    SortedUnique(StringLess, a, b);
  }
}
