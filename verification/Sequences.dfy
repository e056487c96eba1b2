/** Filtering and the library's stable sort, shared by whatever puts a list in order. */
module Sequences {
  function Filter<T>(s: seq<T>, keep: T -> bool): (r: seq<T>)
    ensures forall x :: x in r ==> x in s && keep(x)
  {
    if s == [] then []
    else (if keep(s[0]) then [s[0]] else []) + Filter(s[1..], keep)
  }

  function Not<T>(p: T -> bool): T -> bool {
    (x: T) => !p(x)
  }

  function Insert<T>(x: T, s: seq<T>, atMost: (T, T) -> bool): seq<T> {
    if s == [] || atMost(x, s[0]) then [x] + s else [s[0]] + Insert(x, s[1..], atMost)
  }

  function StableSort<T>(s: seq<T>, atMost: (T, T) -> bool): seq<T> {
    if s == [] then [] else Insert(s[0], StableSort(s[1..], atMost), atMost)
  }

  // ---------------------------------------------------------------- filtering

  lemma {:induction false} FilterCounts<T>(s: seq<T>, keep: T -> bool)
    ensures multiset(Filter(s, keep)) + multiset(Filter(s, Not(keep))) == multiset(s)
  {
    if s == [] {
    } else {
      FilterCounts(s[1..], keep);
      assert s == [s[0]] + s[1..];
    }
  }

  lemma Associates<T>(a: seq<T>, b: seq<T>, c: seq<T>)
    ensures a + (b + c) == (a + b) + c
  {
  }

  lemma {:induction false} FilterSnoc<T>(s: seq<T>, x: T, keep: T -> bool)
    ensures Filter(s + [x], keep) == Filter(s, keep) + (if keep(x) then [x] else [])
  {
    var whole, last := s + [x], if keep(x) then [x] else [];
    if s == [] {
      assert whole == [x] && Filter<T>([], keep) == [];
    } else {
      var rest := s[1..];
      FilterSnoc(rest, x, keep);
      assert whole[0] == s[0] && whole[1..] == rest + [x];
      Associates(if keep(s[0]) then [s[0]] else [], Filter(rest, keep), last);
    }
  }

  lemma {:induction false} FilterHas<T>(s: seq<T>, keep: T -> bool, x: T)
    ensures x in Filter(s, keep) <==> x in s && keep(x)
  {
    if s == [] {
    } else {
      FilterHas(s[1..], keep, x);
      assert s == [s[0]] + s[1..];
    }
  }

  // ---------------------------------------------------------------- sorting

  lemma {:induction false} InsertCounts<T>(x: T, s: seq<T>, atMost: (T, T) -> bool)
    ensures multiset(Insert(x, s, atMost)) == multiset{x} + multiset(s)
    ensures forall y :: y in Insert(x, s, atMost) <==> y == x || y in s
  {
    if s == [] || atMost(x, s[0]) {
    } else {
      InsertCounts(x, s[1..], atMost);
      assert s == [s[0]] + s[1..];
    }
  }

  /** Nothing is lost or added. */
  lemma {:induction false} SortCounts<T>(s: seq<T>, atMost: (T, T) -> bool)
    ensures multiset(StableSort(s, atMost)) == multiset(s)
    ensures forall y :: y in StableSort(s, atMost) <==> y in s
  {
    if s == [] {
    } else {
      SortCounts(s[1..], atMost);
      InsertCounts(s[0], StableSort(s[1..], atMost), atMost);
      assert s == [s[0]] + s[1..];
    }
  }

  ghost predicate TotalPreorder<T(!new)>(atMost: (T, T) -> bool) {
    && (forall a, b :: atMost(a, b) || atMost(b, a))
    && (forall a, b, c :: atMost(a, b) && atMost(b, c) ==> atMost(a, c))
  }

  ghost predicate Sorted<T>(s: seq<T>, atMost: (T, T) -> bool) {
    s == [] || ((forall y :: y in s[1..] ==> atMost(s[0], y)) && Sorted(s[1..], atMost))
  }

  lemma {:induction false} InsertSorted<T(!new)>(x: T, s: seq<T>, atMost: (T, T) -> bool)
    requires TotalPreorder(atMost) && Sorted(s, atMost)
    ensures Sorted(Insert(x, s, atMost), atMost)
  {
    if s == [] {
    } else if atMost(x, s[0]) {
      assert ([x] + s)[1..] == s && s == [s[0]] + s[1..];
    } else {
      InsertSorted(x, s[1..], atMost);
      InsertCounts(x, s[1..], atMost);
      assert ([s[0]] + Insert(x, s[1..], atMost))[1..] == Insert(x, s[1..], atMost);
    }
  }

  lemma {:induction false} SortSorted<T(!new)>(s: seq<T>, atMost: (T, T) -> bool)
    requires TotalPreorder(atMost)
    ensures Sorted(StableSort(s, atMost), atMost)
  {
    if s == [] {
    } else {
      SortSorted(s[1..], atMost);
      InsertSorted(s[0], StableSort(s[1..], atMost), atMost);
    }
  }

  /** Elements that stand level keep the order they came in. */
  lemma {:induction false} SortStable<T(!new)>(s: seq<T>, atMost: (T, T) -> bool, level: T -> bool)
    requires forall a, b :: level(a) && level(b) ==> atMost(a, b)
    ensures Filter(StableSort(s, atMost), level) == Filter(s, level)
  {
    if s == [] {
    } else {
      SortStable(s[1..], atMost, level);
      InsertStable(s[0], StableSort(s[1..], atMost), atMost, level);
    }
  }

  lemma {:induction false} InsertStable<T(!new)>(x: T, s: seq<T>, atMost: (T, T) -> bool, level: T -> bool)
    requires forall a, b :: level(a) && level(b) ==> atMost(a, b)
    ensures Filter(Insert(x, s, atMost), level) == (if level(x) then [x] else []) + Filter(s, level)
  {
    if s == [] || atMost(x, s[0]) {
      assert ([x] + s)[1..] == s;
    } else {
      InsertStable(x, s[1..], atMost, level);
      assert ([s[0]] + Insert(x, s[1..], atMost))[1..] == Insert(x, s[1..], atMost);
    }
  }
}
