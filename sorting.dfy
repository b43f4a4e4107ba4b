/**
 * An insertion sort by a "may come before" relation. It stands for JavaScript's
 * `Array.prototype.sort` with a comparator, which the tracker calls on its reminder list
 * and on its food statistics; the engine's own algorithm is not part of this model.
 */
module Sorting {

  /** Any two elements can be put in some order. */
  ghost predicate Total<T(!new)>(before: (T, T) -> bool) {
    forall a, b :: before(a, b) || before(b, a)
  }

  ghost predicate Transitive<T(!new)>(before: (T, T) -> bool) {
    forall a, b, c :: before(a, b) && before(b, c) ==> before(a, c)
  }

  predicate Sorted<T>(s: seq<T>, before: (T, T) -> bool) {
    forall i, j :: 0 <= i < j < |s| ==> before(s[i], s[j])
  }

  /** Puts `x` in front of the first element it may come before. */
  function Insert<T>(x: T, s: seq<T>, before: (T, T) -> bool): (r: seq<T>)
    ensures multiset(r) == multiset(s) + multiset{x}
  {
    if s == [] || before(x, s[0]) then [x] + s
    else
      assert s == [s[0]] + s[1..];
      [s[0]] + Insert(x, s[1..], before)
  }

  function Sort<T>(s: seq<T>, before: (T, T) -> bool): (r: seq<T>)
    ensures multiset(r) == multiset(s)
  {
    if s == [] then []
    else
      assert s == [s[0]] + s[1..];
      Insert(s[0], Sort(s[1..], before), before)
  }

  lemma {:induction false} InsertSorted<T(!new)>(x: T, s: seq<T>, before: (T, T) -> bool)
    requires Total(before) && Transitive(before) && Sorted(s, before)
    ensures Sorted(Insert(x, s, before), before)
    decreases |s|
  {
    var r := Insert(x, s, before);
    if s == [] || before(x, s[0]) {
      assert r == [x] + s;
    } else {
      var rest := Insert(x, s[1..], before);
      InsertSorted(x, s[1..], before);
      assert r == [s[0]] + rest;
      forall k | 0 <= k < |rest| ensures before(s[0], rest[k]) {
        assert rest[k] in multiset(rest);
        if rest[k] != x {
          assert rest[k] in multiset(s[1..]);
          var m :| 0 <= m < |s[1..]| && s[1..][m] == rest[k];
          assert s[m + 1] == rest[k];
        }
      }
    }
  }

  predicate NoDuplicates<T(==)>(s: seq<T>) {
    forall i, j :: 0 <= i < j < |s| ==> s[i] != s[j]
  }

  lemma {:induction false} InsertNoDuplicates<T(!new)>(x: T, s: seq<T>, before: (T, T) -> bool)
    requires NoDuplicates(s) && x !in s
    ensures NoDuplicates(Insert(x, s, before))
    decreases |s|
  {
    if s != [] && !before(x, s[0]) {
      var rest := Insert(x, s[1..], before);
      InsertNoDuplicates(x, s[1..], before);
      forall k | 0 <= k < |rest| ensures rest[k] != s[0] {
        assert rest[k] in multiset(rest);
        if rest[k] != x {
          assert rest[k] in multiset(s[1..]);
        }
      }
    }
  }

  /** Sorting a sequence without repetitions gives one without repetitions. */
  lemma {:induction false} SortNoDuplicates<T(!new)>(s: seq<T>, before: (T, T) -> bool)
    requires NoDuplicates(s)
    ensures NoDuplicates(Sort(s, before))
    decreases |s|
  {
    if s != [] {
      SortNoDuplicates(s[1..], before);
      assert s[0] !in multiset(Sort(s[1..], before)) by {
        assert s[0] !in s[1..];
      }
      InsertNoDuplicates(s[0], Sort(s[1..], before), before);
    }
  }

  lemma {:induction false} SortSorted<T(!new)>(s: seq<T>, before: (T, T) -> bool)
    requires Total(before) && Transitive(before)
    ensures Sorted(Sort(s, before), before)
    decreases |s|
  {
    if s != [] {
      SortSorted(s[1..], before);
      InsertSorted(s[0], Sort(s[1..], before), before);
    }
  }
}
