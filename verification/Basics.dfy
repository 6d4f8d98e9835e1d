// Shared vocabulary: optional and fallible values, and facts about finite sequences of ids.

module Basics {
  datatype Option<+T> = None | Some(value: T)

  datatype Result<+T, +E> = Success(value: T) | Failure(error: E)

  type UnitId = string

  ghost predicate Distinct<T>(s: seq<T>) {
    forall i, j :: 0 <= i < j < |s| ==> s[i] != s[j]
  }

  function Elements<T>(s: seq<T>): set<T> {
    set x | x in s
  }

  function Max(a: int, b: int): int {
    if a < b then b else a
  }

  lemma ElementsAppend<T>(s: seq<T>, x: T)
    ensures Elements(s + [x]) == Elements(s) + {x}
  {
    assert (s + [x])[|s|] == x;
    assert forall i :: 0 <= i < |s| ==> s[i] == (s + [x])[i];
  }

  lemma ElementsPrefix<T>(s: seq<T>, k: nat)
    requires k < |s|
    ensures Elements(s[..k + 1]) == Elements(s[..k]) + {s[k]}
  {
    assert s[..k + 1] == s[..k] + [s[k]];
    ElementsAppend(s[..k], s[k]);
  }

  lemma {:induction false} DistinctCardinality<T>(s: seq<T>)
    requires Distinct(s)
    ensures |Elements(s)| == |s|
  {
    if s == [] {
    } else {
      var front := s[..|s| - 1];
      DistinctCardinality(front);
      assert s == front + [s[|s| - 1]];
      assert Elements(s) == Elements(front) + {s[|s| - 1]};
    }
  }

  lemma SubsetCardinality<T>(a: set<T>, b: set<T>)
    requires a <= b
    ensures |a| <= |b|
    ensures |a| == |b| ==> a == b
  {
    assert b == a + (b - a);
  }

  // The pigeonhole principle, for a walk that stays inside a finite set.
  lemma Pigeonhole<T>(s: seq<T>, range: set<T>)
    requires Elements(s) <= range
    requires |s| > |range|
    ensures exists i, j :: 0 <= i < j < |s| && s[i] == s[j]
  {
    if Distinct(s) {
      DistinctCardinality(s);
      SubsetCardinality(Elements(s), range);
      assert false;
    }
  }

  lemma {:induction false} LengthBound(taken: set<string>) returns (n: nat)
    ensures forall s :: s in taken ==> |s| <= n
    decreases |taken|
  {
    if taken == {} {
      n := 0;
    } else {
      var s :| s in taken;
      var m := LengthBound(taken - {s});
      n := if |s| <= m then m else |s|;
    }
  }

  lemma FreshString(taken: set<string>) returns (s: string)
    ensures s !in taken
  {
    var n := LengthBound(taken);
    s := seq(n + 1, _ => 'x');
  }

  function Concat<T>(parts: seq<seq<T>>): seq<T> {
    if parts == [] then [] else parts[0] + Concat(parts[1..])
  }

  lemma {:induction false} ConcatMore<T>(parts: seq<seq<T>>, part: seq<T>)
    ensures Concat(parts + [part]) == Concat(parts) + part
  {
    if parts == [] {
      assert (parts + [part])[1..] == [];
    } else {
      ConcatMore(parts[1..], part);
      assert (parts + [part])[1..] == parts[1..] + [part];
    }
  }

  // The counterpart of an element, if it has one.
  ghost predicate IsPart<T(!new), U(!new)>(x: T, part: seq<U>, fits: (T, U) -> bool) {
    (|part| == 1 && fits(x, part[0])) || (part == [] && forall u :: !fits(x, u))
  }

  // `to` lists, in order, the counterparts of those elements of `from` that have one.
  ghost predicate SelectedFrom<T(!new), U(!new)>(from: seq<T>, to: seq<U>, fits: (T, U) -> bool) {
    exists parts: seq<seq<U>> ::
      |parts| == |from| && to == Concat(parts) && forall i :: 0 <= i < |from| ==> IsPart(from[i], parts[i], fits)
  }

  lemma SelectNone<T(!new), U(!new)>(fits: (T, U) -> bool)
    ensures SelectedFrom([], [], fits)
  {
    assert Concat<U>([]) == [];
  }

  lemma SelectMore<T(!new), U(!new)>(from: seq<T>, to: seq<U>, fits: (T, U) -> bool, x: T, part: seq<U>)
    requires SelectedFrom(from, to, fits) && IsPart(x, part, fits)
    ensures SelectedFrom([x] + from, part + to, fits)
  {
    hide IsPart;
    var parts: seq<seq<U>> :|
      |parts| == |from| && to == Concat(parts) && forall i :: 0 <= i < |from| ==> IsPart(from[i], parts[i], fits);
    assert ([part] + parts)[1..] == parts;
  }
}
