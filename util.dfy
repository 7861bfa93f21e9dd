/** Sequence helpers shared by every list-managing component: the JavaScript array operations the
    components call (`filter`, `slice`, `splice(i, 1)`, `Math.max(...ids, 0)`) and the page arithmetic
    that each table repeats (`slice((page - 1) * size, page * size)`, `Math.ceil(n / size)`). */
module Util {

  datatype Option<+T> = None | Some(value: T)

  lemma ConcatAssoc<T>(a: seq<T>, b: seq<T>, c: seq<T>)
    ensures a + (b + c) == (a + b) + c
  {
  }

  /** `Array.prototype.filter`: the elements of `s` that `keep` accepts, in their original order. */
  function Filter<T>(s: seq<T>, keep: T -> bool): (r: seq<T>)
    ensures |r| <= |s|
    ensures forall i :: 0 <= i < |r| ==> keep(r[i])
  {
    if s == [] then []
    else
      assert s == [s[0]] + s[1..];
      (if keep(s[0]) then [s[0]] else []) + Filter(s[1..], keep)
  }

  /** The filtered list holds exactly the elements of `s` that `keep` accepts. */
  lemma {:induction false} FilterMembers<T>(s: seq<T>, keep: T -> bool, x: T)
    ensures x in Filter(s, keep) <==> x in s && keep(x)
  {
    if s != [] {
      FilterMembers(s[1..], keep, x);
      assert s == [s[0]] + s[1..];
    }
  }

  /** Filtering distributes over concatenation, so the kept elements keep their relative order. */
  lemma {:induction false} FilterConcat<T>(a: seq<T>, b: seq<T>, keep: T -> bool)
    ensures Filter(a + b, keep) == Filter(a, keep) + Filter(b, keep)
  {
    if a == [] {
      assert a + b == b;
    } else {
      assert (a + b)[1..] == a[1..] + b;
      FilterConcat(a[1..], b, keep);
    }
  }

  lemma FilterSingleton<T>(x: T, keep: T -> bool)
    ensures Filter([x], keep) == if keep(x) then [x] else []
  {
    assert Filter([x], keep) == (if keep(x) then [x] else []) + Filter([], keep);
  }

  /** Filtering a list is filtering its two halves, cut anywhere. */
  lemma FilterSplit<T>(s: seq<T>, k: nat, keep: T -> bool)
    requires k <= |s|
    ensures Filter(s, keep) == Filter(s[..k], keep) + Filter(s[k..], keep)
  {
    calc {
      Filter(s, keep);
      { assert s == s[..k] + s[k..]; }
      Filter(s[..k] + s[k..], keep);
      { FilterConcat(s[..k], s[k..], keep); }
      Filter(s[..k], keep) + Filter(s[k..], keep);
    }
  }

  /** Filtering a list is filtering all but its last element, then adding the last one if kept. */
  lemma FilterSnoc<T>(s: seq<T>, keep: T -> bool)
    requires s != []
    ensures Filter(s, keep) == Filter(s[..|s| - 1], keep) + (if keep(s[|s| - 1]) then [s[|s| - 1]] else [])
  {
    FilterSplit(s, |s| - 1, keep);
    assert s[|s| - 1..] == [s[|s| - 1]];
    FilterSingleton(s[|s| - 1], keep);
  }

  /** A filter that accepts every element is the identity, and only then. */
  lemma {:induction false} FilterAll<T>(s: seq<T>, keep: T -> bool)
    ensures Filter(s, keep) == s <==> forall i :: 0 <= i < |s| ==> keep(s[i])
  {
    if s != [] {
      FilterAll(s[1..], keep);
      if !keep(s[0]) {
        assert |Filter(s, keep)| < |s| by { assert Filter(s, keep) == Filter(s[1..], keep); }
      }
    }
  }

  /** A filter that accepts nothing yields the empty list. */
  lemma {:induction false} FilterNone<T>(s: seq<T>, keep: T -> bool)
    requires forall i :: 0 <= i < |s| ==> !keep(s[i])
    ensures Filter(s, keep) == []
  {
    if s != [] {
      FilterNone(s[1..], keep);
    }
  }

  /** A filter that accepts every element keeps the list as it is. */
  lemma FilterKeepsAll<T>(s: seq<T>, keep: T -> bool)
    requires forall i :: 0 <= i < |s| ==> keep(s[i])
    ensures Filter(s, keep) == s
  {
    FilterAll(s, keep);
  }

  /** A filter that rejects exactly the element at position `i` removes just that element. */
  lemma {:induction false} FilterDropsOne<T>(s: seq<T>, i: nat, keep: T -> bool)
    requires i < |s| && !keep(s[i])
    requires forall j :: 0 <= j < |s| && j != i ==> keep(s[j])
    ensures Filter(s, keep) == s[..i] + s[i + 1..]
  {
    var tail := s[1..];
    assert Filter(s, keep) == (if keep(s[0]) then [s[0]] else []) + Filter(tail, keep);
    if i == 0 {
      assert forall k :: 0 <= k < |tail| ==> keep(tail[k]) by {
        forall k | 0 <= k < |tail| ensures keep(tail[k]) {
          assert tail[k] == s[k + 1];
        }
      }
      FilterKeepsAll(tail, keep);
      assert s[..0] + s[1..] == tail;
    } else {
      assert forall j :: 0 <= j < |tail| && j != i - 1 ==> keep(tail[j]) by {
        forall j | 0 <= j < |tail| && j != i - 1 ensures keep(tail[j]) {
          assert tail[j] == s[j + 1];
        }
      }
      FilterDropsOne(tail, i - 1, keep);
      assert [s[0]] + (tail[..i - 1] + tail[i..]) == s[..i] + s[i + 1..];
    }
  }

  /** `Array.prototype.find`: the first element `p` accepts, or nothing when it accepts none. */
  function FindFirst<T>(s: seq<T>, p: T -> bool): (r: Option<T>)
    ensures r.None? <==> forall k :: 0 <= k < |s| ==> !p(s[k])
    ensures r.Some? ==> r.value in s && p(r.value)
  {
    if s == [] then None
    else if p(s[0]) then Some(s[0])
    else FindFirst(s[1..], p)
  }

  /** `find` returns the first accepted element, not just any. */
  lemma {:induction false} FindFirstIsFirst<T>(s: seq<T>, p: T -> bool, k: nat)
    requires k < |s| && p(s[k])
    requires forall j :: 0 <= j < k ==> !p(s[j])
    ensures FindFirst(s, p) == Some(s[k])
  {
    if k > 0 {
      FindFirstIsFirst(s[1..], p, k - 1);
    }
  }

  /** `Array.prototype.map`. */
  function Map<T, U>(s: seq<T>, f: T -> U): (r: seq<U>)
    ensures |r| == |s|
    ensures forall i :: 0 <= i < |s| ==> r[i] == f(s[i])
  {
    if s == [] then [] else [f(s[0])] + Map(s[1..], f)
  }

  /** Mapping a list with one more element at the end adds its image at the end. */
  lemma MapSnoc<T, U>(s: seq<T>, x: T, f: T -> U)
    ensures Map(s + [x], f) == Map(s, f) + [f(x)]
  {
    var l, r := Map(s + [x], f), Map(s, f) + [f(x)];
    forall i | 0 <= i < |l| ensures l[i] == r[i] {
      if i < |s| {
        assert (s + [x])[i] == s[i];
      }
    }
  }

  /** The number of elements that satisfy `p` (`s.filter(p).length`). */
  function Count<T>(s: seq<T>, p: T -> bool): (n: nat)
    ensures n <= |s|
    ensures n == |s| <==> forall i :: 0 <= i < |s| ==> p(s[i])
    ensures n == 0 <==> forall i :: 0 <= i < |s| ==> !p(s[i])
  {
    if s == [] then 0 else (if p(s[0]) then 1 else 0) + Count(s[1..], p)
  }

  /** Counting is the length of the filtered list. */
  lemma {:induction false} CountIsFilterLength<T>(s: seq<T>, p: T -> bool)
    ensures Count(s, p) == |Filter(s, p)|
  {
    if s != [] {
      CountIsFilterLength(s[1..], p);
    }
  }

  /** Two tests that agree on every element count the same elements. */
  lemma {:induction false} CountSameTest<T>(s: seq<T>, p: T -> bool, q: T -> bool)
    requires forall i :: 0 <= i < |s| ==> p(s[i]) == q(s[i])
    ensures Count(s, p) == Count(s, q)
  {
    if s != [] {
      CountSameTest(s[1..], p, q);
    }
  }

  /** Counting distributes over concatenation. */
  lemma {:induction false} CountConcat<T>(a: seq<T>, b: seq<T>, p: T -> bool)
    ensures Count(a + b, p) == Count(a, p) + Count(b, p)
  {
    if a == [] {
      assert a + b == b;
    } else {
      assert (a + b)[1..] == a[1..] + b;
      CountConcat(a[1..], b, p);
    }
  }

  /** How JavaScript reads a `slice`/`splice` position: negative positions count from the end, and the
      result is clamped to [0, n]. */
  function JsIndex(i: int, n: nat): (r: nat)
    ensures r <= n
    ensures 0 <= i <= n ==> r == i
    ensures i > n ==> r == n
    ensures i < 0 ==> r == if n + i < 0 then 0 else n + i
  {
    if i < 0 then (if n + i < 0 then 0 else n + i) else if i > n then n else i
  }

  /** `Array.prototype.slice(start, end)`. */
  function JsSlice<T>(s: seq<T>, start: int, end: int): (r: seq<T>)
    ensures |r| <= |s|
    ensures JsIndex(start, |s|) < JsIndex(end, |s|) ==> r == s[JsIndex(start, |s|)..JsIndex(end, |s|)]
    ensures JsIndex(start, |s|) >= JsIndex(end, |s|) ==> r == []
  {
    var a, b := JsIndex(start, |s|), JsIndex(end, |s|);
    if a < b then s[a..b] else []
  }

  /** A copy of `s` after `splice(i, 1)`: the element at position `i` (read as JavaScript reads it) is
      removed if there is one. */
  function JsRemoveAt<T>(s: seq<T>, i: int): (r: seq<T>)
    ensures 0 <= i < |s| ==> r == s[..i] + s[i + 1..]
    ensures i >= |s| ==> r == s
    ensures |r| == if JsIndex(i, |s|) < |s| then |s| - 1 else |s|
  {
    var k := JsIndex(i, |s|);
    if k < |s| then s[..k] + s[k + 1..] else s
  }

  /** The rows a table shows on `page` when it shows `size` rows per page:
      `s.slice(page * size - size, page * size)`. */
  function PageRows<T>(s: seq<T>, page: int, size: nat): seq<T>
  {
    JsSlice(s, page * size - size, page * size)
  }

  /** A window of `size` positions starting at `lo >= 0`: at most `size` rows, none past the end. */
  lemma SliceWindow<T>(s: seq<T>, lo: int, hi: int, size: nat)
    requires 0 <= lo && hi == lo + size
    ensures |JsSlice(s, lo, hi)| <= size
    ensures lo >= |s| ==> JsSlice(s, lo, hi) == []
    ensures lo < |s| ==> JsSlice(s, lo, hi) == s[lo..if hi <= |s| then hi else |s|]
  {
  }

  /** `(a - 1) * c` is `a * c - c`. */
  lemma MulPred(a: int, c: int)
    ensures (a - 1) * c == a * c - c
  {
  }

  /** On a page numbered from 1, the rows are the `size` rows that start at `(page - 1) * size`, cut
      short at the end of the list. */
  lemma PageRowsWindow<T>(s: seq<T>, page: int, size: nat)
    requires page >= 1
    ensures var first := (page - 1) * size;
      |PageRows(s, page, size)| <= size &&
      (first >= |s| ==> PageRows(s, page, size) == []) &&
      (first < |s| ==> PageRows(s, page, size) == s[first..if page * size <= |s| then page * size else |s|])
  {
    MulPred(page, size);
    MulMonoLe(1, page, size);
    SliceWindow(s, page * size - size, page * size, size);
  }

  /** Page 0, which a pager over an empty list can request, shows nothing. */
  lemma PageZeroEmpty<T>(s: seq<T>, size: nat)
    ensures PageRows(s, 0, size) == []
  {
  }

  /** `Math.ceil(n / size)`: the fewest pages of `size` rows that hold `n` rows. */
  function TotalPages(n: nat, size: nat): (pages: nat)
    requires size > 0
    ensures pages * size >= n
    ensures pages > 0 ==> (pages - 1) * size < n
    ensures pages == 0 <==> n == 0
  {
    (n + size - 1) / size
  }

  /** Every row of the list appears on exactly one page between 1 and the page count. */
  lemma RowOnItsPage<T>(s: seq<T>, size: nat, i: nat) returns (page: int)
    requires size > 0 && i < |s|
    ensures page == i / size + 1
    ensures 1 <= page <= TotalPages(|s|, size)
    ensures (page - 1) * size <= i < page * size
    ensures var offset := i - (page - 1) * size;
      0 <= offset < |PageRows(s, page, size)| && PageRows(s, page, size)[offset] == s[i]
  {
    var q := i / size;
    var pages := TotalPages(|s|, size);
    DivBounds(i, size);
    assert q * size < pages * size;
    MulCancelLt(q, pages, size);
    page := q + 1;
    MulPred(page, size);
    SliceWindow(s, q * size, q * size + size, size);
  }

  lemma DivBounds(i: nat, size: nat)
    requires size > 0
    ensures (i / size) * size <= i < (i / size) * size + size
  {
  }

  lemma MulCancelLt(a: nat, b: nat, c: nat)
    requires a * c < b * c
    ensures a < b
  {
  }

  /** A page past the last one shows nothing; the tables never clamp their page, so this is what a
      stale page number renders. */
  lemma PastLastPageEmpty<T>(s: seq<T>, page: int, size: nat)
    requires size > 0 && page > TotalPages(|s|, size)
    ensures PageRows(s, page, size) == []
  {
    PageRowsWindow(s, page, size);
    MulMonoLe(TotalPages(|s|, size), page - 1, size);
  }

  lemma MulMonoLe(a: nat, b: nat, c: nat)
    requires a <= b
    ensures a * c <= b * c
  {
  }

  /** The "first-last of n" label under a table: `${first + 1}-${Math.min(last, n)} of ${n}`, or
      nothing (the "none" text) for an empty list. */
  datatype Range = Range(first: int, last: int, total: int)

  function RangeLabel(n: nat, page: int, size: nat): Option<Range>
  {
    if n > 0 then Some(Range(page * size - size + 1, if page * size <= n then page * size else n, n)) else None
  }

  /** On a page that exists, the label counts exactly the rows shown, numbered from 1. */
  lemma RangeLabelMatchesRows<T>(s: seq<T>, page: int, size: nat)
    requires size > 0 && 1 <= page <= TotalPages(|s|, size)
    ensures RangeLabel(|s|, page, size).Some?
    ensures var r := RangeLabel(|s|, page, size).value;
      1 <= r.first <= r.last <= r.total == |s| && r.last - r.first + 1 == |PageRows(s, page, size)|
  {
    PageHasRows(|s|, page, size);
    MulMonoLe(1, page, size);
    SliceWindow(s, page * size - size, page * size, size);
  }

  /** A page between 1 and the page count starts inside the list. */
  lemma PageHasRows(n: nat, page: int, size: nat)
    requires size > 0 && 1 <= page <= TotalPages(n, size)
    ensures page * size - size < n
  {
    MulMonoLe(page - 1, TotalPages(n, size) - 1, size);
    MulPred(page, size);
  }

  /** `Math.max(...values, floor)`: the largest value, and never less than `floor`. */
  function MaxWith(values: seq<int>, floor: int): (m: int)
    ensures m >= floor
    ensures forall i :: 0 <= i < |values| ==> values[i] <= m
    ensures m == floor || m in values
  {
    if values == [] then floor
    else
      var rest := MaxWith(values[1..], floor);
      if values[0] > rest then values[0] else rest
  }
}
