/** Sorting without duplicates: Python's sorted(set(...)) on numbers. */
module SortedDistinct {

  ghost predicate Increasing(s: seq<real>) {
    forall i, j :: 0 <= i < j < |s| ==> s[i] < s[j]
  }

  function Insert(x: real, s: seq<real>): seq<real> {
    if s == [] || x < s[0] then [x] + s
    else if x == s[0] then s
    else [s[0]] + Insert(x, s[1..])
  }

  function Sort(xs: seq<real>): seq<real> {
    if xs == [] then [] else Insert(xs[|xs| - 1], Sort(xs[..|xs| - 1]))
  }

  lemma {:induction false} InsertAdds(x: real, s: seq<real>)
    ensures forall y :: y in Insert(x, s) <==> y == x || y in s
  {
    if s != [] && x > s[0] {
      InsertAdds(x, s[1..]);
      assert s == [s[0]] + s[1..];
    }
  }

  lemma {:induction false} InsertKeepsOrder(x: real, s: seq<real>)
    requires Increasing(s)
    ensures Increasing(Insert(x, s))
  {
    if s != [] && x > s[0] {
      InsertKeepsOrder(x, s[1..]);
      InsertAdds(x, s[1..]);
      var rest := Insert(x, s[1..]);
      forall i | 0 <= i < |rest| ensures s[0] < rest[i] {
        assert rest[i] in rest;
      }
    }
  }

  lemma {:induction false} SortSorts(xs: seq<real>)
    ensures Increasing(Sort(xs))
    ensures forall y :: y in Sort(xs) <==> y in xs
  {
    if xs != [] {
      SortSorts(xs[..|xs| - 1]);
      InsertKeepsOrder(xs[|xs| - 1], Sort(xs[..|xs| - 1]));
      InsertAdds(xs[|xs| - 1], Sort(xs[..|xs| - 1]));
      assert xs == xs[..|xs| - 1] + [xs[|xs| - 1]];
    }
  }
}

/** A stable sort by a key: Python's sorted(..., key=...). */
module StableSort {

  ghost predicate InOrder<T>(s: seq<T>, key: T -> real) {
    forall i, j :: 0 <= i < j < |s| ==> key(s[i]) <= key(s[j])
  }

  /** Behind everything with the same key. */
  function Place<T>(s: seq<T>, x: T, key: T -> real): (t: seq<T>)
    ensures |t| == |s| + 1
  {
    if s != [] && key(s[|s| - 1]) > key(x) then Place(s[..|s| - 1], x, key) + [s[|s| - 1]] else s + [x]
  }

  function Sort<T>(xs: seq<T>, key: T -> real): (s: seq<T>)
    ensures |s| == |xs|
  {
    if xs == [] then [] else Place(Sort(xs[..|xs| - 1], key), xs[|xs| - 1], key)
  }

  lemma {:induction false} PlaceKeepsBound<T>(s: seq<T>, x: T, key: T -> real, bound: real)
    requires key(x) <= bound && forall i :: 0 <= i < |s| ==> key(s[i]) <= bound
    ensures forall i :: 0 <= i <= |s| ==> key(Place(s, x, key)[i]) <= bound
  {
    if s != [] && key(s[|s| - 1]) > key(x) { PlaceKeepsBound(s[..|s| - 1], x, key, bound); }
  }

  lemma {:induction false} PlaceKeepsOrder<T>(s: seq<T>, x: T, key: T -> real)
    requires InOrder(s, key)
    ensures InOrder(Place(s, x, key), key)
  {
    if s != [] && key(s[|s| - 1]) > key(x) {
      PlaceKeepsOrder(s[..|s| - 1], x, key);
      PlaceKeepsBound(s[..|s| - 1], x, key, key(s[|s| - 1]));
    }
  }

  lemma {:induction false} PlaceKeepsElements<T>(s: seq<T>, x: T, key: T -> real)
    ensures multiset(Place(s, x, key)) == multiset(s) + multiset{x}
  {
    if s != [] && key(s[|s| - 1]) > key(x) {
      PlaceKeepsElements(s[..|s| - 1], x, key);
      assert s == s[..|s| - 1] + [s[|s| - 1]];
    }
  }

  /** A sorted arrangement of the same elements. */
  lemma {:induction false} SortSorts<T>(xs: seq<T>, key: T -> real)
    ensures InOrder(Sort(xs, key), key) && multiset(Sort(xs, key)) == multiset(xs)
  {
    if xs != [] {
      var init, last := xs[..|xs| - 1], xs[|xs| - 1];
      SortSorts(init, key);
      PlaceKeepsOrder(Sort(init, key), last, key);
      PlaceKeepsElements(Sort(init, key), last, key);
      assert xs == init + [last];
    }
  }

  /** The elements with one key, in their order. */
  function WithKey<T>(s: seq<T>, key: T -> real, k: real): seq<T> {
    if s == [] then []
    else WithKey(s[..|s| - 1], key, k) + if key(s[|s| - 1]) == k then [s[|s| - 1]] else []
  }

  lemma {:induction false} PlaceIsLast<T>(s: seq<T>, x: T, key: T -> real, k: real)
    ensures WithKey(Place(s, x, key), key, k) == WithKey(s, key, k) + if key(x) == k then [x] else []
  {
    if s != [] && key(s[|s| - 1]) > key(x) {
      PlaceIsLast(s[..|s| - 1], x, key, k);
      var t := Place(s[..|s| - 1], x, key);
      assert (t + [s[|s| - 1]])[..|t|] == t;
    } else {
      assert (s + [x])[..|s|] == s;
    }
  }

  /** Elements with equal keys keep their order. */
  lemma {:induction false} SortIsStable<T>(xs: seq<T>, key: T -> real, k: real)
    ensures WithKey(Sort(xs, key), key, k) == WithKey(xs, key, k)
  {
    if xs != [] {
      SortIsStable(xs[..|xs| - 1], key, k);
      PlaceIsLast(Sort(xs[..|xs| - 1], key), xs[|xs| - 1], key, k);
    }
  }
}
