/** `Array.prototype.sort` with a comparator, as the project table and the admin card call it. The
    language guarantees a stable sort, and with a consistent comparator the stable sorted order is
    unique, so an insertion sort stands for it here. */
module Sorting {
  import opened Util

  /** What a comparator must satisfy for `sort` to have a well-defined result: swapping the arguments
      flips the sign, and "not after" is transitive. */
  ghost predicate Consistent<T(!new)>(cmp: (T, T) -> int)
  {
    (forall a, b :: cmp(a, b) < 0 <==> cmp(b, a) > 0) &&
    (forall a, b, c {:trigger cmp(a, b), cmp(b, c), cmp(a, c)} :: cmp(a, b) <= 0 && cmp(b, c) <= 0 ==> cmp(a, c) <= 0)
  }

  /** Ordered by `cmp`: no element is after a later one. */
  ghost predicate Sorted<T>(s: seq<T>, cmp: (T, T) -> int)
  {
    forall i, j :: 0 <= i < j < |s| ==> cmp(s[i], s[j]) <= 0
  }

  /** The elements that `cmp` cannot tell apart from `e`. */
  function Ties<T>(cmp: (T, T) -> int, e: T): T -> bool
  {
    y => cmp(e, y) == 0
  }

  /** The comparator a table uses for descending order: the ascending one times -1. */
  function Reversed<T>(cmp: (T, T) -> int): (T, T) -> int
  {
    (a, b) => cmp(a, b) * -1
  }

  /** The comparator `(a, b) => key(a) - key(b)` used for numeric and date columns. */
  function ByKey<T>(key: T -> int): (T, T) -> int
  {
    (a, b) => key(a) - key(b)
  }

  lemma ByKeyConsistent<T(!new)>(key: T -> int)
    ensures Consistent(ByKey(key))
  {
  }

  /** Reversing a consistent comparator keeps it consistent, and each pair compares the other way. */
  lemma ReversedConsistent<T(!new)>(cmp: (T, T) -> int)
    requires Consistent(cmp)
    ensures Consistent(Reversed(cmp))
    ensures forall a, b :: Reversed(cmp)(a, b) <= 0 <==> cmp(a, b) >= 0
  {
  }

  /** Places `x` after every element of the sorted `s` that is not after it. */
  function Insert<T>(x: T, s: seq<T>, cmp: (T, T) -> int): (r: seq<T>)
    ensures |r| == |s| + 1
    ensures multiset(r) == multiset(s) + multiset{x}
  {
    if s == [] || cmp(x, s[0]) < 0 then [x] + s
    else
      assert s == [s[0]] + s[1..];
      [s[0]] + Insert(x, s[1..], cmp)
  }

  /** The stable sort: each element in turn is placed after the equal elements already placed. */
  function StableSort<T>(s: seq<T>, cmp: (T, T) -> int): (r: seq<T>)
    ensures |r| == |s|
    ensures multiset(r) == multiset(s)
  {
    if s == [] then []
    else
      assert s == s[..|s| - 1] + [s[|s| - 1]];
      Insert(s[|s| - 1], StableSort(s[..|s| - 1], cmp), cmp)
  }

  lemma {:induction false} InsertSorted<T(!new)>(x: T, s: seq<T>, cmp: (T, T) -> int)
    requires Consistent(cmp) && Sorted(s, cmp)
    ensures Sorted(Insert(x, s, cmp), cmp)
  {
    if s != [] && cmp(x, s[0]) >= 0 {
      InsertSorted(x, s[1..], cmp);
      var rest := Insert(x, s[1..], cmp);
      assert cmp(s[0], x) <= 0;
      forall j | 0 <= j < |rest| ensures cmp(s[0], rest[j]) <= 0 {
        assert rest[j] in multiset(s[1..]) + multiset{x} by { assert rest[j] in multiset(rest); }
        if rest[j] != x {
          assert rest[j] in s[1..];
        }
      }
    }
  }

  /** The sort orders its result by the comparator. */
  lemma {:induction false} SortSorted<T(!new)>(s: seq<T>, cmp: (T, T) -> int)
    requires Consistent(cmp)
    ensures Sorted(StableSort(s, cmp), cmp)
  {
    if s != [] {
      SortSorted(s[..|s| - 1], cmp);
      InsertSorted(s[|s| - 1], StableSort(s[..|s| - 1], cmp), cmp);
    }
  }

  /** With a consistent comparator, nothing at or after an element strictly after `x` ties with
      something `x` ties with. */
  lemma NotTiedAfter<T(!new)>(cmp: (T, T) -> int, e: T, x: T, y: T, z: T)
    requires Consistent(cmp)
    requires cmp(e, x) == 0 && cmp(x, y) < 0 && cmp(y, z) <= 0
    ensures cmp(e, z) != 0
  {
    var zx := cmp(z, x);
    assert cmp(y, x) > 0;
  }

  /** Inserting before the head: if `x` ties with `e`, nothing in `s` does. */
  lemma InsertFrontTies<T(!new)>(x: T, s: seq<T>, cmp: (T, T) -> int, e: T)
    requires Consistent(cmp) && Sorted(s, cmp)
    requires s != [] && cmp(x, s[0]) < 0 && cmp(e, x) == 0
    ensures Filter(s, Ties(cmp, e)) == []
  {
    forall j | 0 <= j < |s| ensures !Ties(cmp, e)(s[j]) {
      if j > 0 {
        assert cmp(s[0], s[j]) <= 0;
      }
      NotTiedAfter(cmp, e, x, s[0], s[j]);
    }
    FilterNone(s, Ties(cmp, e));
  }

  /** Inserting after the head: the head's contribution to the filter comes first on both sides. */
  lemma InsertBehindHead<T>(x: T, s: seq<T>, cmp: (T, T) -> int, p: T -> bool)
    requires s != [] && cmp(x, s[0]) >= 0
    ensures Filter(Insert(x, s, cmp), p) == Filter([s[0]], p) + Filter(Insert(x, s[1..], cmp), p)
    ensures Filter(s, p) == Filter([s[0]], p) + Filter(s[1..], p)
  {
    assert Insert(x, s, cmp) == [s[0]] + Insert(x, s[1..], cmp);
    FilterConcat([s[0]], Insert(x, s[1..], cmp), p);
    assert s == [s[0]] + s[1..];
    FilterConcat([s[0]], s[1..], p);
  }

  /** Inserting before the head: `x` contributes first. */
  lemma InsertInFront<T>(x: T, s: seq<T>, cmp: (T, T) -> int, p: T -> bool)
    requires s != [] && cmp(x, s[0]) < 0
    ensures Filter(Insert(x, s, cmp), p) == (if p(x) then [x] else []) + Filter(s, p)
  {
    assert Insert(x, s, cmp) == [x] + s;
    FilterConcat([x], s, p);
    FilterSingleton(x, p);
  }

  /** Inserting after the head keeps whatever the filter gained when inserting into the tail. */
  lemma InsertBehindHeadKeeps<T>(x: T, s: seq<T>, cmp: (T, T) -> int, p: T -> bool)
    requires s != [] && cmp(x, s[0]) >= 0
    requires Filter(Insert(x, s[1..], cmp), p) == Filter(s[1..], p) + (if p(x) then [x] else [])
    ensures Filter(Insert(x, s, cmp), p) == Filter(s, p) + (if p(x) then [x] else [])
  {
    InsertBehindHead(x, s, cmp, p);
    ConcatAssoc(Filter([s[0]], p), Filter(s[1..], p), if p(x) then [x] else []);
  }

  lemma SortedTail<T>(s: seq<T>, cmp: (T, T) -> int)
    requires s != [] && Sorted(s, cmp)
    ensures Sorted(s[1..], cmp)
  {
    forall i, j | 0 <= i < j < |s| - 1 ensures cmp(s[1..][i], s[1..][j]) <= 0 {
      assert s[1..][i] == s[i + 1] && s[1..][j] == s[j + 1];
    }
  }

  lemma InsertTiesFront<T(!new)>(x: T, s: seq<T>, cmp: (T, T) -> int, e: T)
    requires Consistent(cmp) && Sorted(s, cmp)
    requires s == [] || cmp(x, s[0]) < 0
    ensures Filter(Insert(x, s, cmp), Ties(cmp, e)) ==
            Filter(s, Ties(cmp, e)) + (if Ties(cmp, e)(x) then [x] else [])
  {
    if s == [] {
      assert Insert(x, s, cmp) == [x];
      FilterSingleton(x, Ties(cmp, e));
    } else {
      InsertInFront(x, s, cmp, Ties(cmp, e));
      if Ties(cmp, e)(x) {
        InsertFrontTies(x, s, cmp, e);
      }
    }
  }

  /** `Insert` adds `x` to the elements tied with `e` exactly when `x` is tied with `e`, and it goes
      after the ones already there. */
  lemma {:induction false} InsertTies<T(!new)>(x: T, s: seq<T>, cmp: (T, T) -> int, e: T)
    requires Consistent(cmp) && Sorted(s, cmp)
    ensures Filter(Insert(x, s, cmp), Ties(cmp, e)) ==
            Filter(s, Ties(cmp, e)) + (if Ties(cmp, e)(x) then [x] else [])
  {
    if s == [] || cmp(x, s[0]) < 0 {
      InsertTiesFront(x, s, cmp, e);
    } else {
      SortedTail(s, cmp);
      InsertTies(x, s[1..], cmp, e);
      InsertBehindHeadKeeps(x, s, cmp, Ties(cmp, e));
    }
  }

  /** One step of the sort keeps a filter's result when inserting the last element does. */
  lemma SortStep<T>(s: seq<T>, cmp: (T, T) -> int, p: T -> bool)
    requires s != []
    requires Filter(StableSort(s[..|s| - 1], cmp), p) == Filter(s[..|s| - 1], p)
    requires Filter(Insert(s[|s| - 1], StableSort(s[..|s| - 1], cmp), cmp), p) ==
             Filter(StableSort(s[..|s| - 1], cmp), p) + (if p(s[|s| - 1]) then [s[|s| - 1]] else [])
    ensures Filter(StableSort(s, cmp), p) == Filter(s, p)
  {
    assert StableSort(s, cmp) == Insert(s[|s| - 1], StableSort(s[..|s| - 1], cmp), cmp);
    FilterSnoc(s, p);
  }

  /** The sort is stable: the elements tied with any `e` keep their original relative order. */
  lemma {:induction false} SortStable<T(!new)>(s: seq<T>, cmp: (T, T) -> int, e: T)
    requires Consistent(cmp)
    ensures Filter(StableSort(s, cmp), Ties(cmp, e)) == Filter(s, Ties(cmp, e))
  {
    if s != [] {
      var init, last := s[..|s| - 1], s[|s| - 1];
      SortStable(init, cmp, e);
      SortSorted(init, cmp);
      InsertTies(last, StableSort(init, cmp), cmp, e);
      SortStep(s, cmp, Ties(cmp, e));
    }
  }

  lemma {:induction false} InsertLast<T(!new)>(x: T, s: seq<T>, cmp: (T, T) -> int)
    requires forall j :: 0 <= j < |s| ==> cmp(x, s[j]) >= 0
    ensures Insert(x, s, cmp) == s + [x]
  {
    if s != [] {
      InsertLast(x, s[1..], cmp);
      assert s == [s[0]] + s[1..];
    }
  }

  lemma SortedPrefix<T>(init: seq<T>, last: T, cmp: (T, T) -> int)
    requires Sorted(init + [last], cmp)
    ensures Sorted(init, cmp)
  {
    var s := init + [last];
    forall i, j | 0 <= i < j < |init| ensures cmp(init[i], init[j]) <= 0 {
      assert init[i] == s[i] && init[j] == s[j];
    }
  }

  /** In an ordered list the last element is not before any other. */
  lemma LastNotBefore<T(!new)>(init: seq<T>, last: T, cmp: (T, T) -> int)
    requires Consistent(cmp) && Sorted(init + [last], cmp)
    ensures forall j :: 0 <= j < |init| ==> cmp(last, init[j]) >= 0
  {
    var s := init + [last];
    forall j | 0 <= j < |init| ensures cmp(last, init[j]) >= 0 {
      assert init[j] == s[j] && last == s[|init|] && cmp(s[j], s[|init|]) <= 0;
    }
  }

  /** A list that is already ordered is left as it is. */
  lemma {:induction false} SortOfSorted<T(!new)>(s: seq<T>, cmp: (T, T) -> int)
    requires Consistent(cmp) && Sorted(s, cmp)
    ensures StableSort(s, cmp) == s
  {
    if s != [] {
      var init, last := s[..|s| - 1], s[|s| - 1];
      assert s == init + [last];
      SortedPrefix(init, last, cmp);
      LastNotBefore(init, last, cmp);
      calc {
        StableSort(s, cmp);
        Insert(last, StableSort(init, cmp), cmp);
        { SortOfSorted(init, cmp); }
        Insert(last, init, cmp);
        { InsertLast(last, init, cmp); }
        s;
      }
    }
  }

  /** `Insert` consults `cmp` only on `x` and the elements of `s`, so two comparators that agree
      there place `x` alike. */
  lemma {:induction false} InsertAgrees<T>(x: T, s: seq<T>, cmp1: (T, T) -> int, cmp2: (T, T) -> int)
    requires forall b :: b in s ==> cmp1(x, b) == cmp2(x, b)
    ensures Insert(x, s, cmp1) == Insert(x, s, cmp2)
  {
    if s != [] && cmp1(x, s[0]) >= 0 {
      assert forall b :: b in s[1..] ==> b in s;
      InsertAgrees(x, s[1..], cmp1, cmp2);
    }
  }

  /** The sorted order depends only on how `cmp` compares the elements of the list itself. */
  lemma {:induction false} SortAgrees<T>(s: seq<T>, cmp1: (T, T) -> int, cmp2: (T, T) -> int)
    requires forall a, b :: a in s && b in s ==> cmp1(a, b) == cmp2(a, b)
    ensures StableSort(s, cmp1) == StableSort(s, cmp2)
  {
    if s != [] {
      var init, last := s[..|s| - 1], s[|s| - 1];
      assert forall a :: a in init ==> a in s;
      SortAgrees(init, cmp1, cmp2);
      var sorted := StableSort(init, cmp1);
      forall b | b in sorted ensures cmp1(last, b) == cmp2(last, b) {
        assert b in multiset(sorted);
        assert b in init;
      }
      InsertAgrees(last, sorted, cmp1, cmp2);
    }
  }

  /** The first element of the sorted list is one of the list's and comes before none of them. */
  lemma SortedHeadFirst<T(!new)>(s: seq<T>, cmp: (T, T) -> int)
    requires Consistent(cmp) && s != []
    ensures StableSort(s, cmp)[0] in s
    ensures forall k :: 0 <= k < |s| ==> cmp(StableSort(s, cmp)[0], s[k]) <= 0
  {
    var sorted := StableSort(s, cmp);
    SortSorted(s, cmp);
    assert sorted[0] in multiset(s) by { assert sorted[0] in multiset(sorted); }
    forall k | 0 <= k < |s| ensures cmp(sorted[0], s[k]) <= 0 {
      assert s[k] in multiset(sorted) by { assert s[k] in multiset(s); }
      var j :| 0 <= j < |sorted| && sorted[j] == s[k];
      if j > 0 {
        assert cmp(sorted[0], sorted[j]) <= 0;
      }
    }
  }

  /** Sorting twice gives what sorting once gives. */
  lemma SortIdempotent<T(!new)>(s: seq<T>, cmp: (T, T) -> int)
    requires Consistent(cmp)
    ensures StableSort(StableSort(s, cmp), cmp) == StableSort(s, cmp)
  {
    SortSorted(s, cmp);
    SortOfSorted(StableSort(s, cmp), cmp);
  }
}
