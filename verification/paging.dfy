/** Page arithmetic shared by the purchase-history page and the admin panel:
    both show 12 entries a page, count pages as `Math.max(1, Math.ceil(n / 12))`
    and cut a page out with `list.slice((page - 1) * 12, (page - 1) * 12 + 12)`. */
module Paging {

  const PageSize: nat := 12

  /** `Math.max(1, Math.ceil(n / PageSize))`: the fewest pages, but at least one, that hold `n` entries. */
  function TotalPages(n: nat): (t: nat)
    ensures t >= 1
    ensures n <= t * PageSize
    ensures t == 1 || (t - 1) * PageSize < n
  {
    if n == 0 then 1 else (n + PageSize - 1) / PageSize
  }

  /** Index of the first entry of `page` (1-based). */
  function PageStart(page: int): int {
    (page - 1) * PageSize
  }

  /** JavaScript `items.slice(start, start + PageSize)` for a page number of at least 1. */
  function PageSlice<T>(items: seq<T>, page: int): (r: seq<T>)
    requires page >= 1
    ensures |r| <= PageSize
    ensures forall k :: 0 <= k < |r| ==> PageStart(page) + k < |items| && r[k] == items[PageStart(page) + k]
    ensures PageStart(page) < |items| ==> |r| == if |items| - PageStart(page) < PageSize then |items| - PageStart(page) else PageSize
    ensures PageStart(page) >= |items| ==> r == []
  {
    var start := PageStart(page);
    if start >= |items| then []
    else if start + PageSize <= |items| then items[start..start + PageSize]
    else items[start..]
  }

  /** Every page up to the last one of a non-empty list shows at least one entry. */
  lemma PageNotEmpty<T>(items: seq<T>, page: int)
    requires items != [] && 1 <= page <= TotalPages(|items|)
    ensures PageSlice(items, page) != []
  {
    var t := TotalPages(|items|);
    assert (page - 1) * PageSize <= (t - 1) * PageSize;
    assert items[PageStart(page)] == PageSlice(items, page)[0];
  }

  /** Entry `i` is shown on page `i / 12 + 1`, at position `i % 12`. */
  lemma EntryOnItsPage<T>(items: seq<T>, i: nat)
    requires i < |items|
    ensures i / PageSize + 1 <= TotalPages(|items|)
    ensures i % PageSize < |PageSlice(items, i / PageSize + 1)|
    ensures PageSlice(items, i / PageSize + 1)[i % PageSize] == items[i]
  {
    var p := i / PageSize + 1;
    assert PageStart(p) + i % PageSize == i;
  }

  /** The first `count` pages, one after the other. */
  function Pages<T>(items: seq<T>, count: nat): seq<T> {
    if count == 0 then [] else Pages(items, count - 1) + PageSlice(items, count)
  }

  /** Walking the pages 1 .. TotalPages shows every entry exactly once, in order. */
  lemma {:induction false} PagesCoverAll<T>(items: seq<T>)
    ensures Pages(items, TotalPages(|items|)) == items
  {
    PagesPrefix(items, TotalPages(|items|));
  }

  lemma {:induction false} PagesPrefix<T>(items: seq<T>, count: nat)
    ensures Pages(items, count) == items[..if count * PageSize < |items| then count * PageSize else |items|]
  {
    if count > 0 {
      PagesPrefix(items, count - 1);
    }
  }
}
