/** The purchase-history page of `js/history.js`: key shortening, the search
    filter and sort orders of `applyFilters`, page clamping, the slice a page
    shows, the pagination controls, the page handlers and the total spent.

    The page's `state` object becomes the `HistoryView` class; the DOM, date
    formatting and the display mode (grid or list) are not modelled. Dates are
    the millisecond timestamps `new Date(purchase_date)` yields. */
module PurchaseHistory {
  import opened Wrappers
  import opened Text
  import opened Seqs
  import opened Paging

  const ShortKeyLimit := 18

  /** `shortKey`: nothing for a missing key, a short key as it is, else the first 8 and last 6 characters around an ellipsis. */
  function ShortKey(key: Option<string>): (r: string)
    ensures |r| <= ShortKeyLimit
    ensures !Truthy(key) ==> r == []
    ensures Truthy(key) && |key.value| <= ShortKeyLimit ==> r == key.value
    ensures Truthy(key) && |key.value| > ShortKeyLimit ==>
              |r| == 15 && r[..8] == key.value[..8] && r[8] == '…' && r[9..] == key.value[|key.value| - 6..]
  {
    if !Truthy(key) then []
    else if |key.value| <= ShortKeyLimit then key.value
    else key.value[..8] + "…" + key.value[|key.value| - 6..]
  }

  /** A shortened key is short enough to be shown as it is. */
  lemma ShortKeyIdempotent(key: Option<string>)
    ensures ShortKey(Some(ShortKey(key))) == ShortKey(key)
  {
  }

  /** One entry of `/purchase-history`; absent fields are `None`. */
  datatype Purchase = Purchase(
    productName: Option<string>,
    key: Option<string>,
    robloxUsername: Option<string>,
    purchaseId: Option<string>,
    price: Option<int>,
    date: int)

  /** `p.price || 0` */
  function PriceOf(p: Purchase): int {
    p.price.GetOr(0)
  }

  // ---------------------------------------------------------------------------
  // Search
  // ---------------------------------------------------------------------------

  /** `state.search.trim().toLowerCase()` */
  function SearchTerm(search: string): string {
    Lower(Strip(search))
  }

  /** A present, non-empty field whose lower-cased text contains the term. */
  predicate FieldMatches(field: Option<string>, term: string) {
    Truthy(field) && Contains(Lower(field.value), term)
  }

  predicate Matches(p: Purchase, term: string) {
    FieldMatches(p.productName, term) || FieldMatches(p.key, term)
    || FieldMatches(p.robloxUsername, term) || FieldMatches(p.purchaseId, term)
  }

  /** The filter callback for one term. */
  function MatchesTerm(term: string): Purchase -> bool {
    (p: Purchase) => Matches(p, term)
  }

  /** The purchases the search keeps: all of them for a blank term, else the matching ones in their order. */
  function Searched(purchases: seq<Purchase>, search: string): seq<Purchase> {
    var term := SearchTerm(search);
    if term == [] then purchases else Filter(purchases, MatchesTerm(term))
  }

  // ---------------------------------------------------------------------------
  // Sort orders
  // ---------------------------------------------------------------------------

  /** Code-unit order on strings, standing in for `localeCompare`. */
  predicate LexLe(a: string, b: string) {
    a == [] || (b != [] && (a[0] < b[0] || (a[0] == b[0] && LexLe(a[1..], b[1..]))))
  }

  lemma {:induction false} LexLeTotal(a: string, b: string)
    ensures LexLe(a, b) || LexLe(b, a)
  {
    if a != [] && b != [] && a[0] == b[0] {
      LexLeTotal(a[1..], b[1..]);
    }
  }

  lemma {:induction false} LexLeTransitive(a: string, b: string, c: string)
    requires LexLe(a, b) && LexLe(b, c)
    ensures LexLe(a, c)
  {
    if a != [] && b != [] && c != [] && a[0] == b[0] && b[0] == c[0] {
      LexLeTransitive(a[1..], b[1..], c[1..]);
    }
  }

  /** The four orders of the sort selector. */
  datatype SortKey = Oldest | Product | Price | Newest

  /** The `switch (state.sort)`: any value other than the three named ones sorts newest first. */
  function SortKeyOf(sort: string): (key: SortKey)
    ensures key == Newest <==> sort != "oldest" && sort != "product" && sort != "price"
  {
    if sort == "oldest" then Oldest
    else if sort == "product" then Product
    else if sort == "price" then Price
    else Newest
  }

  /** The comparator of each order, read as "may come first": oldest, product name, price high to low, newest. */
  predicate Before(key: SortKey, a: Purchase, b: Purchase) {
    match key
    case Oldest => a.date <= b.date
    case Product => LexLe(a.productName.GetOr(""), b.productName.GetOr(""))
    case Price => PriceOf(a) >= PriceOf(b)
    case Newest => a.date >= b.date
  }

  function Order(key: SortKey): (Purchase, Purchase) -> bool {
    (a: Purchase, b: Purchase) => Before(key, a, b)
  }

  lemma OrderIsTotalPreorder(key: SortKey)
    ensures Total(Order(key)) && Transitive(Order(key))
  {
    if key == Product {
      var le := Order(key);
      forall a: Purchase, b: Purchase ensures le(a, b) || le(b, a) {
        LexLeTotal(a.productName.GetOr(""), b.productName.GetOr(""));
      }
      forall a: Purchase, b: Purchase, c: Purchase | le(a, b) && le(b, c) ensures le(a, c) {
        LexLeTransitive(a.productName.GetOr(""), b.productName.GetOr(""), c.productName.GetOr(""));
      }
    }
  }

  /** `state.filtered` as `applyFilters` leaves it. */
  function Arrange(purchases: seq<Purchase>, search: string, sort: SortKey): seq<Purchase> {
    SortBy(Searched(purchases, search), Order(sort))
  }

  /** The arranged list is ordered by the chosen comparator. */
  lemma ArrangeSorted(purchases: seq<Purchase>, search: string, sort: SortKey)
    ensures SortedBy(Arrange(purchases, search, sort), Order(sort))
  {
    OrderIsTotalPreorder(sort);
    SortBySorted(Searched(purchases, search), Order(sort));
  }

  /** The arranged list holds exactly the matching purchases, each as often as in the input; a blank term keeps all of them. */
  lemma ArrangeSelects(purchases: seq<Purchase>, search: string, sort: SortKey, p: Purchase)
    ensures var term := SearchTerm(search);
            multiset(Arrange(purchases, search, sort))[p] ==
              if term == [] || Matches(p, term) then multiset(purchases)[p] else 0
  {
    var term := SearchTerm(search);
    if term != [] {
      FilterCounts(purchases, MatchesTerm(term), p);
    }
  }

  /** An arranged list that is already in order is not rearranged again. */
  lemma ArrangeStable(purchases: seq<Purchase>, sort: SortKey)
    requires SortedBy(purchases, Order(sort))
    ensures Arrange(purchases, "", sort) == purchases
  {
    assert SearchTerm("") == [];
    SortByKeepsSorted(purchases, Order(sort));
  }

  // ---------------------------------------------------------------------------
  // Summary
  // ---------------------------------------------------------------------------

  /** `purchases.reduce((s, p) => s + (p.price || 0), 0)` */
  function TotalSpent(purchases: seq<Purchase>): int {
    if purchases == [] then 0 else TotalSpent(purchases[..|purchases| - 1]) + PriceOf(purchases[|purchases| - 1])
  }

  /** The total of two lists one after the other is the sum of their totals. */
  lemma {:induction false} TotalSpentConcat(a: seq<Purchase>, b: seq<Purchase>)
    ensures TotalSpent(a + b) == TotalSpent(a) + TotalSpent(b)
    decreases |b|
  {
    if b == [] {
      assert a + b == a;
    } else {
      assert (a + b)[..|a + b| - 1] == a + b[..|b| - 1];
      TotalSpentConcat(a, b[..|b| - 1]);
    }
  }

  /** With no negative prices, the total is at least any one price. */
  lemma {:induction false} TotalSpentBounds(purchases: seq<Purchase>, i: nat)
    requires forall k :: 0 <= k < |purchases| ==> PriceOf(purchases[k]) >= 0
    requires i < |purchases|
    ensures TotalSpent(purchases) >= PriceOf(purchases[i]) >= 0
  {
    var n := |purchases| - 1;
    TotalSpentNonNegative(purchases[..n]);
    if i < n {
      TotalSpentBounds(purchases[..n], i);
    }
  }

  lemma {:induction false} TotalSpentNonNegative(purchases: seq<Purchase>)
    requires forall k :: 0 <= k < |purchases| ==> PriceOf(purchases[k]) >= 0
    ensures TotalSpent(purchases) >= 0
  {
    if purchases != [] {
      TotalSpentNonNegative(purchases[..|purchases| - 1]);
    }
  }

  // ---------------------------------------------------------------------------
  // The page state
  // ---------------------------------------------------------------------------

  /** What `renderPagination` sets: whether the bar is shown, and which buttons are disabled. */
  datatype Controls = Controls(visible: bool, prevDisabled: bool, nextDisabled: bool)

  class HistoryView {
    var purchases: seq<Purchase>
    var filtered: seq<Purchase>
    var page: int
    /** The order `state.sort` names. */
    var sort: SortKey
    var search: string

    ghost predicate Valid()
      reads this
    {
      page >= 1
    }

    constructor (purchases: seq<Purchase>)
      ensures this.purchases == purchases && filtered == [] && page == 1 && sort == Newest && search == ""
      ensures Valid()
    {
      this.purchases := purchases;
      filtered := [];
      page := 1;
      sort := Newest;
      search := "";
    }

    /** `applyFilters`: search, sort a copy, then clamp the page to the last one. */
    method ApplyFilters()
      requires Valid()
      modifies this`filtered, this`page
      ensures Valid()
      ensures filtered == Arrange(purchases, search, sort)
      ensures page == if old(page) > TotalPages(|filtered|) then TotalPages(|filtered|) else old(page)
      ensures page <= TotalPages(|filtered|)
    {
      var list, text, order := purchases, search, sort;
      var term := SearchTerm(text);
      if term != [] {
        list := Filter(list, MatchesTerm(term));
      }
      assert list == Searched(purchases, text);
      list := SortBy(list, Order(order));
      assert list == Arrange(purchases, text, order);
      filtered := list;
      var totalPages := TotalPages(|list|);
      if page > totalPages {
        page := totalPages;
      }
    }

    /** `renderPurchases`: re-arrange, then show the current page. */
    method RenderPurchases() returns (shown: seq<Purchase>)
      requires Valid()
      modifies this`filtered, this`page
      ensures Valid()
      ensures filtered == Arrange(purchases, search, sort)
      ensures page == if old(page) > TotalPages(|filtered|) then TotalPages(|filtered|) else old(page)
      ensures shown == PageSlice(filtered, page)
      ensures |shown| <= PageSize
      ensures filtered != [] ==> shown != []
    {
      ApplyFilters();
      shown := PageSlice(filtered, page);
      if filtered != [] {
        PageNotEmpty(filtered, page);
      }
    }

    /** `renderPagination` */
    function Pagination(): (c: Controls)
      reads this
      ensures c.visible <==> |filtered| > PageSize
      ensures c.visible ==> (c.prevDisabled <==> page <= 1) && (c.nextDisabled <==> page >= TotalPages(|filtered|))
    {
      var totalPages := TotalPages(|filtered|);
      if |filtered| == 0 then Controls(false, false, false)
      else Controls(totalPages > 1, page <= 1, page >= totalPages)
    }

    /** The search box: new term, back to page 1, render. */
    method OnSearch(value: string) returns (shown: seq<Purchase>)
      requires Valid()
      modifies this`search, this`filtered, this`page
      ensures Valid()
      ensures search == value && page == 1
      ensures filtered == Arrange(purchases, value, sort)
      ensures shown == PageSlice(filtered, 1)
    {
      search := value;
      page := 1;
      shown := RenderPurchases();
    }

    /** The sort selector: new order, render on the same (clamped) page. */
    method OnSort(value: string) returns (shown: seq<Purchase>)
      requires Valid()
      modifies this`sort, this`filtered, this`page
      ensures Valid()
      ensures sort == SortKeyOf(value)
      ensures filtered == Arrange(purchases, search, SortKeyOf(value))
      ensures page == if old(page) > TotalPages(|filtered|) then TotalPages(|filtered|) else old(page)
      ensures shown == PageSlice(filtered, page)
    {
      sort := SortKeyOf(value);
      shown := RenderPurchases();
    }

    /** The previous-page button: does nothing on page 1. */
    method OnPrev() returns (shown: Option<seq<Purchase>>)
      requires Valid()
      modifies this`filtered, this`page
      ensures Valid()
      ensures old(page) <= 1 ==> shown == None && page == old(page) && filtered == old(filtered)
      ensures old(page) > 1 ==>
                && filtered == Arrange(purchases, search, sort)
                && page == (if old(page) - 1 > TotalPages(|filtered|) then TotalPages(|filtered|) else old(page) - 1)
                && shown == Some(PageSlice(filtered, page))
    {
      if page > 1 {
        page := page - 1;
        var s := RenderPurchases();
        return Some(s);
      }
      return None;
    }

    /** The next-page button: always steps forward; the render pulls the page back to the last one. */
    method OnNext() returns (shown: seq<Purchase>)
      requires Valid()
      modifies this`filtered, this`page
      ensures Valid()
      ensures filtered == Arrange(purchases, search, sort)
      ensures page == if old(page) + 1 > TotalPages(|filtered|) then TotalPages(|filtered|) else old(page) + 1
      ensures shown == PageSlice(filtered, page)
    {
      page := page + 1;
      shown := RenderPurchases();
    }
  }

  /** On a page that exists, next is disabled exactly when the page after it would be empty. */
  lemma NextDisabledOnLastPage(filtered: seq<Purchase>, page: int)
    requires 1 <= page <= TotalPages(|filtered|)
    ensures page >= TotalPages(|filtered|) <==> PageSlice(filtered, page + 1) == []
  {
    if page < TotalPages(|filtered|) {
      PageNotEmpty(filtered, page + 1);
    }
  }
}
