// Stable sorting by a strict weak order.
module Sorting {

  ghost predicate StrictWeakOrder<T(!new)>(before: (T, T) -> bool) {
    && (forall x, y :: before(x, y) ==> !before(y, x))
    && (forall x, y, z :: before(x, y) && before(y, z) ==> before(x, z))
    && (forall x, y, z :: !before(x, y) && !before(y, z) ==> !before(x, z))
  }

  predicate Ordered<T>(s: seq<T>, before: (T, T) -> bool) {
    forall i, j :: 0 <= i < j < |s| ==> !before(s[j], s[i])
  }

  // An element goes ahead of its equals: those were behind it.
  function Insert<T>(x: T, s: seq<T>, before: (T, T) -> bool): seq<T> {
    if s == [] || !before(s[0], x) then [x] + s else [s[0]] + Insert(x, s[1..], before)
  }

  function Sort<T>(s: seq<T>, before: (T, T) -> bool): seq<T> {
    if s == [] then [] else Insert(s[0], Sort(s[1..], before), before)
  }

  lemma {:induction false} InsertAdds<T(!new)>(x: T, s: seq<T>, before: (T, T) -> bool)
    ensures multiset(Insert(x, s, before)) == multiset(s) + multiset{x}
  {
    if s != [] && before(s[0], x) {
      InsertAdds(x, s[1..], before);
      assert s == [s[0]] + s[1..];
    }
  }

  lemma {:induction false} InsertHolds<T(!new)>(x: T, s: seq<T>, before: (T, T) -> bool)
    requires StrictWeakOrder(before) && Ordered(s, before)
    ensures Ordered(Insert(x, s, before), before)
    ensures multiset(Insert(x, s, before)) == multiset(s) + multiset{x}
  {
    InsertAdds(x, s, before);
    if s != [] && before(s[0], x) {
      var rest := Insert(x, s[1..], before);
      InsertHolds(x, s[1..], before);
      forall y | y in rest ensures !before(y, s[0]) {
        assert y in multiset(rest);
      }
    }
  }

  lemma {:induction false} SortHolds<T(!new)>(s: seq<T>, before: (T, T) -> bool)
    requires StrictWeakOrder(before)
    ensures Ordered(Sort(s, before), before)
    ensures multiset(Sort(s, before)) == multiset(s)
  {
    if s != [] {
      SortHolds(s[1..], before);
      InsertHolds(s[0], Sort(s[1..], before), before);
      assert s == [s[0]] + s[1..];
    }
  }

  lemma {:induction false} SortKeepsOrdered<T>(s: seq<T>, before: (T, T) -> bool)
    requires Ordered(s, before)
    ensures Sort(s, before) == s
  {
    if s != [] {
      SortKeepsOrdered(s[1..], before);
      assert s == [s[0]] + s[1..];
    }
  }

  // Equal elements keep the order they came in.
  function Equals<T>(s: seq<T>, x: T, before: (T, T) -> bool): seq<T> {
    if s == [] then []
    else (if !before(s[0], x) && !before(x, s[0]) then [s[0]] else []) + Equals(s[1..], x, before)
  }

  lemma {:induction false} InsertStable<T(!new)>(x: T, s: seq<T>, y: T, before: (T, T) -> bool)
    requires StrictWeakOrder(before)
    ensures Equals(Insert(x, s, before), y, before) == Equals([x] + s, y, before)
  {
    assert ([x] + s)[1..] == s;
    if s != [] && before(s[0], x) {
      var rest := Insert(x, s[1..], before);
      InsertStable(x, s[1..], y, before);
      assert ([s[0]] + rest)[1..] == rest && ([x] + s[1..])[1..] == s[1..];
    }
  }

  lemma {:induction false} SortStable<T(!new)>(s: seq<T>, y: T, before: (T, T) -> bool)
    requires StrictWeakOrder(before)
    ensures Equals(Sort(s, before), y, before) == Equals(s, y, before)
  {
    if s != [] {
      SortStable(s[1..], y, before);
      InsertStable(s[0], Sort(s[1..], before), y, before);
      assert ([s[0]] + Sort(s[1..], before))[1..] == Sort(s[1..], before);
    }
  }
}
