/** The admin panel of `js/admin.js`: the shortened key on a purchase card, the
    paged purchases modal with its previous/next buttons, the account table
    ordered by purchase count, the account drawer with its recent purchases,
    and the drawer's open/close bookkeeping.

    The panel's module variables (`currentPurchases`, `currentPage`,
    `currentUserId`, `currentUsername`) become the fields of `AdminPanel`;
    requests to the admin API are replaced by the data they return, and the
    DOM is not modelled. Dates are millisecond timestamps. */
module AdminConsole {
  import opened Wrappers
  import opened Seqs
  import opened Paging

  const KeyShortLimit := 20
  /** The separator as the page shows it: the UTF-8 bytes of `…` read as Windows-1252. */
  const Separator := "â€¦"
  const RecentLimit := 10

  /** The `keyShort` expression of a purchase card. */
  function KeyShort(key: Option<string>): (r: string)
    ensures r != []
    ensures |r| <= KeyShortLimit
    ensures !Truthy(key) ==> r == "-"
    ensures Truthy(key) && |key.value| <= KeyShortLimit ==> r == key.value
    ensures Truthy(key) && |key.value| > KeyShortLimit ==>
              |r| == 19 && r[..10] == key.value[..10] && r[10..13] == Separator && r[13..] == key.value[|key.value| - 6..]
  {
    var k := if Truthy(key) then key.value else "";
    if |k| > KeyShortLimit then k[..10] + Separator + k[|k| - 6..]
    else if Truthy(key) then key.value else "-"
  }

  /** A shortened key is shown as it is. */
  lemma KeyShortIdempotent(key: Option<string>)
    ensures KeyShort(Some(KeyShort(key))) == KeyShort(key)
  {
  }

  /** A purchase as the admin API lists it; `purchaseDate` and `ts` are absent when missing or empty. */
  datatype AdminPurchase = AdminPurchase(key: Option<string>, purchaseDate: Option<int>, ts: Option<int>)

  /** `new Date(p.purchase_date || p.ts || 0)` */
  function Stamp(p: AdminPurchase): int {
    if p.purchaseDate.Some? then p.purchaseDate.value else p.ts.GetOr(0)
  }

  datatype Account = Account(userId: string, username: string, totalPurchases: Option<int>,
                             purchaseHistory: Option<seq<AdminPurchase>>)

  // ---------------------------------------------------------------------------
  // Orders
  // ---------------------------------------------------------------------------

  /** `(b.total_purchases || 0) - (a.total_purchases || 0)`, read as "may come first". */
  function MorePurchases(): (Account, Account) -> bool {
    (a: Account, b: Account) => a.totalPurchases.GetOr(0) >= b.totalPurchases.GetOr(0)
  }

  /** Newest first by `Stamp`. */
  function Newer(): (AdminPurchase, AdminPurchase) -> bool {
    (a: AdminPurchase, b: AdminPurchase) => Stamp(a) >= Stamp(b)
  }

  /** The account table lists every account once, most purchases first. */
  lemma AccountOrder(accounts: seq<Account>)
    ensures SortedBy(SortBy(accounts, MorePurchases()), MorePurchases())
    ensures multiset(SortBy(accounts, MorePurchases())) == multiset(accounts)
  {
    SortBySorted(accounts, MorePurchases());
  }

  /** The drawer lists every purchase once, newest first. */
  lemma HistoryOrder(history: seq<AdminPurchase>)
    ensures SortedBy(SortBy(history, Newer()), Newer())
    ensures multiset(SortBy(history, Newer())) == multiset(history)
  {
    SortBySorted(history, Newer());
  }

  /** `loadAccounts` sorts the returned array in place before listing it. */
  method SortAccounts(accounts: array<Account>)
    modifies accounts
    ensures accounts[..] == SortBy(old(accounts[..]), MorePurchases())
  {
    var sorted := SortBy(accounts[..], MorePurchases());
    forall i | 0 <= i < accounts.Length {
      accounts[i] := sorted[i];
    }
  }

  // ---------------------------------------------------------------------------
  // The panel state
  // ---------------------------------------------------------------------------

  /** The purchases modal: `0/0` when there is nothing, else the page, the page count and the cards of the page. */
  datatype PageView = NoPurchases | PageOf(page: int, totalPages: int, cards: seq<AdminPurchase>)

  /** The drawer's list of recent purchases, whether its purchases button is enabled and whether "view all" is shown. */
  datatype Drawer = Drawer(recent: seq<AdminPurchase>, purchasesEnabled: bool, viewAll: bool)

  /** The account request: failed (an exception, or `success` false), or succeeded with `data.account`, which may be missing. */
  datatype AccountReply = LoadFailed | LoadSucceeded(account: Option<Account>)

  class AdminPanel {
    var currentPurchases: seq<AdminPurchase>
    var currentPage: int
    var currentUserId: Option<string>
    var currentUsername: Option<string>

    ghost predicate Valid()
      reads this
    {
      currentPage >= 1
    }

    constructor ()
      ensures currentPurchases == [] && currentPage == 1 && currentUserId == None && currentUsername == None
      ensures Valid()
    {
      currentPurchases := [];
      currentPage := 1;
      currentUserId := None;
      currentUsername := None;
    }

    /** What the modal shows for the current list and page: `0/0`, or the page, the page count and its cards. */
    function CurrentView(): (view: PageView)
      requires Valid()
      reads this
      ensures currentPurchases == [] <==> view == NoPurchases
      ensures view.PageOf? && currentPage <= TotalPages(|currentPurchases|) ==> 1 <= |view.cards| <= PageSize
    {
      if currentPurchases == [] then NoPurchases
      else
        var total := TotalPages(|currentPurchases|);
        if currentPage <= total then PageNotEmpty(currentPurchases, currentPage); PageOf(currentPage, total, PageSlice(currentPurchases, currentPage))
        else PageOf(currentPage, total, PageSlice(currentPurchases, currentPage))
    }

    /** `renderPurchases`: clamp the page to the last one and show its cards. */
    method RenderPurchases() returns (view: PageView)
      requires Valid()
      modifies this`currentPage
      ensures Valid()
      ensures currentPurchases == [] ==> currentPage == old(currentPage)
      ensures currentPurchases != [] ==>
                var total := TotalPages(|currentPurchases|);
                currentPage == (if old(currentPage) > total then total else old(currentPage))
      ensures view == CurrentView()
      ensures view.PageOf? ==> currentPage == view.page <= view.totalPages && 1 <= |view.cards| <= PageSize
    {
      if currentPurchases == [] {
        return NoPurchases;
      }
      var totalPages := TotalPages(|currentPurchases|);
      if currentPage > totalPages {
        currentPage := totalPages;
      }
      view := PageOf(currentPage, totalPages, PageSlice(currentPurchases, currentPage));
    }

    /** The previous button: does nothing on page 1. */
    method PrevPage() returns (view: Option<PageView>)
      requires Valid()
      modifies this`currentPage
      ensures Valid()
      ensures old(currentPage) <= 1 ==> view == None && currentPage == old(currentPage)
      ensures old(currentPage) > 1 ==>
                && view == Some(CurrentView())
                && currentPage == if currentPurchases == [] || old(currentPage) - 1 <= TotalPages(|currentPurchases|)
                                  then old(currentPage) - 1 else TotalPages(|currentPurchases|)
    {
      if currentPage > 1 {
        currentPage := currentPage - 1;
        var v := RenderPurchases();
        return Some(v);
      }
      return None;
    }

    /** The next button: does nothing on the last page (`Math.ceil(n / 12) || 1`, which is `TotalPages`). */
    method NextPage() returns (view: Option<PageView>)
      requires Valid()
      modifies this`currentPage
      ensures Valid()
      ensures old(currentPage) >= TotalPages(|currentPurchases|) ==> view == None && currentPage == old(currentPage)
      ensures old(currentPage) < TotalPages(|currentPurchases|) ==> view == Some(CurrentView()) && currentPage == old(currentPage) + 1
      ensures currentPage <= TotalPages(|currentPurchases|) || currentPage == old(currentPage)
    {
      var totalPages := TotalPages(|currentPurchases|);
      if currentPage < totalPages {
        currentPage := currentPage + 1;
        var v := RenderPurchases();
        return Some(v);
      }
      return None;
    }

    /** `renderDrawer`: the account's purchases newest first become the modal's list, from page 1; ten are listed. */
    method RenderDrawer(account: Account) returns (drawer: Drawer)
      modifies this`currentPurchases, this`currentPage
      ensures Valid()
      ensures currentPurchases == SortBy(account.purchaseHistory.GetOr([]), Newer())
      ensures currentPage == 1
      ensures drawer.recent == currentPurchases[..if |currentPurchases| < RecentLimit then |currentPurchases| else RecentLimit]
      ensures drawer.purchasesEnabled <==> account.purchaseHistory.GetOr([]) != []
      ensures drawer.viewAll <==> |account.purchaseHistory.GetOr([])| > RecentLimit
    {
      var purchases := SortBy(account.purchaseHistory.GetOr([]), Newer());
      currentPurchases := purchases;
      currentPage := 1;
      if purchases == [] {
        return Drawer([], false, false);
      }
      var recent := if |purchases| < RecentLimit then purchases else purchases[..RecentLimit];
      drawer := Drawer(recent, true, |purchases| > RecentLimit);
    }

    /** `viewAccount`: remember whose account is open, then open the drawer once the request reports success.
        A success without an account opens the drawer on whatever it showed before: `renderDrawer` returns at once. */
    method ViewAccount(userId: string, username: string, reply: AccountReply) returns (isOpen: bool, drawer: Option<Drawer>)
      requires Valid()
      modifies this
      ensures Valid()
      ensures currentUserId == Some(userId) && currentUsername == Some(username)
      ensures isOpen <==> reply.LoadSucceeded?
      ensures drawer.Some? <==> reply.LoadSucceeded? && reply.account.Some?
      ensures !(reply.LoadSucceeded? && reply.account.Some?) ==>
                currentPurchases == old(currentPurchases) && currentPage == old(currentPage)
      ensures reply.LoadSucceeded? && reply.account.Some? ==>
                var history := reply.account.value.purchaseHistory.GetOr([]);
                && currentPurchases == SortBy(history, Newer())
                && currentPage == 1
                && drawer.value.recent == currentPurchases[..if |currentPurchases| < RecentLimit then |currentPurchases| else RecentLimit]
                && (drawer.value.purchasesEnabled <==> history != [])
                && (drawer.value.viewAll <==> |history| > RecentLimit)
    {
      currentUserId := Some(userId);
      currentUsername := Some(username);
      match reply {
        case LoadFailed =>
          return false, None;
        case LoadSucceeded(account) =>
          if account.None? {
            return true, None;
          }
          var d := RenderDrawer(account.value);
          return true, Some(d);
      }
    }

    /** `closeDrawer`: forget which account was open. */
    method CloseDrawer()
      modifies this`currentUserId, this`currentUsername
      ensures currentUserId == None && currentUsername == None
    {
      currentUserId := None;
      currentUsername := None;
    }
  }
}
