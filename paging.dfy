/** Client-side pagination of an in-memory list: `Array.prototype.slice` as JavaScript
    defines it, the page count `Math.ceil(n / itemsPerPage)`, and the window shown for a
    1-based page number, for the fixed page size of the category manager. */
module Paging {

  /** Items per page (`itemsPerPage` of the category manager). */
  const ItemsPerPage: nat := 10

  function Min(a: int, b: int): int { if a <= b then a else b }

  function Max(a: int, b: int): int { if a >= b then a else b }

  /** How `slice` turns one of its arguments into an index of a list of length `len`:
      a negative argument counts from the end, and the result is clamped to `0..len`. */
  function RelativeIndex(i: int, len: nat): (r: nat)
    ensures r <= len
    ensures 0 <= i ==> r == Min(i, len)
    ensures i < 0 ==> r == Max(len + i, 0)
  {
    if i < 0 then (if len + i < 0 then 0 else len + i) else if i > len then len else i
  }

  /** `s.slice(start, end)`. */
  function Slice<T>(s: seq<T>, start: int, end: int): (r: seq<T>)
    ensures |r| <= |s|
    ensures 0 <= start <= end ==> r == s[Min(start, |s|)..Min(end, |s|)]
    ensures 0 <= start && |s| <= start ==> r == []
  {
    var from, to := RelativeIndex(start, |s|), RelativeIndex(end, |s|);
    if from < to then s[from..to] else []
  }

  /** `Math.ceil(n / ItemsPerPage)`: the fewest pages that hold `n` items. */
  function TotalPages(n: nat): (r: nat)
    ensures r * ItemsPerPage >= n
    ensures r > 0 ==> (r - 1) * ItemsPerPage < n
    ensures r == 0 <==> n == 0
  {
    (n + ItemsPerPage - 1) / ItemsPerPage
  }

  /** The items shown on the 1-based page `page`:
      `s.slice((page - 1) * ItemsPerPage, (page - 1) * ItemsPerPage + ItemsPerPage)`. */
  function Window<T>(s: seq<T>, page: int): seq<T>
  {
    var startIndex := (page - 1) * ItemsPerPage;
    Slice(s, startIndex, startIndex + ItemsPerPage)
  }

  /** On a page numbered from 1, the window is the run of at most `ItemsPerPage` items
      starting at `(page - 1) * ItemsPerPage`; it is empty exactly on the pages past the
      last one. */
  lemma WindowSpec<T>(s: seq<T>, page: int)
    requires page >= 1
    ensures Window(s, page) == s[Min(|s|, (page - 1) * ItemsPerPage)..Min(|s|, page * ItemsPerPage)]
    ensures |Window(s, page)| <= ItemsPerPage
    ensures Window(s, page) == [] <==> page > TotalPages(|s|)
  {
    var t := TotalPages(|s|);
    if page > t {
      assert (page - 1) * ItemsPerPage >= t * ItemsPerPage;
    } else {
      assert (page - 1) * ItemsPerPage <= (t - 1) * ItemsPerPage;
    }
  }

  /** The windows of pages `1..k`, in order. */
  function PagesUpTo<T>(s: seq<T>, k: nat): (r: seq<seq<T>>)
    ensures |r| == k
    ensures forall i :: 0 <= i < k ==> r[i] == Window(s, i + 1)
  {
    if k == 0 then [] else PagesUpTo(s, k - 1) + [Window(s, k)]
  }

  /** The windows of every page `1..TotalPages(|s|)`. */
  function AllPages<T>(s: seq<T>): seq<seq<T>>
  {
    PagesUpTo(s, TotalPages(|s|))
  }

  /** The concatenation of a list of lists, in order. */
  function Flatten<T>(ss: seq<seq<T>>): seq<T>
  {
    if ss == [] then [] else Flatten(ss[..|ss| - 1]) + ss[|ss| - 1]
  }

  /** The first `k` pages, put back together, are the first `k * ItemsPerPage` items. */
  lemma {:induction false} PagesUpToFlatten<T>(s: seq<T>, k: nat)
    ensures Flatten(PagesUpTo(s, k)) == s[..Min(|s|, k * ItemsPerPage)]
  {
    if k > 0 {
      var ps := PagesUpTo(s, k);
      assert ps[..k - 1] == PagesUpTo(s, k - 1);
      assert Flatten(ps) == Flatten(ps[..k - 1]) + ps[k - 1];
      assert (k - 1) * ItemsPerPage == k * ItemsPerPage - ItemsPerPage;
      PagesUpToFlatten(s, k - 1);
      WindowSpec(s, k);
      var lo, hi := Min(|s|, (k - 1) * ItemsPerPage), Min(|s|, k * ItemsPerPage);
      assert s[..lo] + s[lo..hi] == s[..hi];
    }
  }

  /** Putting the pages `1..TotalPages` back together gives the whole list, each item once
      and in its original order. */
  lemma PagesReconstruct<T>(s: seq<T>)
    ensures |AllPages(s)| == TotalPages(|s|)
    ensures Flatten(AllPages(s)) == s
  {
    PagesUpToFlatten(s, TotalPages(|s|));
    assert s[..|s|] == s;
  }
}
