/** The purchase page's `LicenseManager` (`js/license.js`): the per-username
    throttle, the attempt counter, the record of a completed purchase and the
    append-if-absent list of claimed transactions in `localStorage`, the
    24-hour prefill rule, purchase-session reuse, the bounded retry loop of
    `fetchGamepassCheck`, and the re-entrancy guard of
    `checkGamepassAndIssueKey`.

    `localStorage` entries become fields holding their parsed values (or a
    marker for text that does not parse). Server replies and `Date.now()` are
    parameters; status messages and the DOM are not modelled, only which
    outcome the page shows. */
module License {
  import opened Wrappers
  import opened Text

  const ThrottleMillis := 5000
  const DayMillis := 24 * 60 * 60 * 1000
  const MaxRetries := 3

  /** The stored `purchase_<product>_<username>` entry: the parsed object, or text `JSON.parse` rejects. */
  datatype PurchaseRecord = Record(keyIssued: bool, timestamp: int, transactionId: Option<string>) | Garbled

  /** The stored `claimed_transactions` entry; a missing entry reads as the empty list. */
  datatype ClaimedStore = ClaimedList(ids: seq<string>) | ClaimedGarbled

  datatype Session = Session(username: string, productId: string, startedAt: string)

  /** The fields of a `/check-gamepass` reply the page reads. */
  datatype CheckResponse = CheckResponse(
    needStart: bool,
    transactionId: Option<string>,
    hasGamepass: bool,
    keyIssued: bool,
    key: Option<string>,
    isNewKey: bool)

  /** One try of `fetchGamepassCheck`: a 429 with its body, another failing status (with the body's `shouldRetry`),
      a successful reply, or an exception (network failure, unparseable body). */
  datatype Attempt =
    | TooMany(body: CheckResponse)
    | Rejected(shouldRetry: bool, error: string)
    | Answered(body: CheckResponse)
    | Broken(error: string)

  predicate Delivers(a: Attempt) {
    a.TooMany? || a.Answered?
  }

  /** What the loop ends with: a body, an exception, or (were the loop ever to run out) `undefined`. */
  datatype Outcome = Returned(body: CheckResponse) | Threw(error: string) | NoResponse

  datatype Fetched = Fetched(outcome: Outcome, attempts: int)

  /** The loop from its `count`-th try on: the first delivered reply, or the last error after the third failure. */
  function FetchFrom(answer: nat -> Attempt, count: nat): (r: Fetched)
    requires count < MaxRetries
    ensures count < r.attempts <= MaxRetries
    ensures forall i :: count <= i < r.attempts - 1 ==> !Delivers(answer(i))
    ensures r.outcome.Returned? <==> Delivers(answer(r.attempts - 1))
    ensures r.outcome.Returned? ==> r.outcome.body == answer(r.attempts - 1).body
    ensures r.outcome.Threw? ==> r.attempts == MaxRetries && r.outcome.error == answer(MaxRetries - 1).error
    ensures !r.outcome.NoResponse?
    decreases MaxRetries - count
  {
    var a := answer(count);
    if Delivers(a) then Fetched(Returned(a.body), count + 1)
    else if count + 1 >= MaxRetries then Fetched(Threw(a.error), count + 1)
    else FetchFrom(answer, count + 1)
  }

  /** A 429 on the first try is handed back at once, without retrying. */
  lemma TooManyNotRetried(answer: nat -> Attempt)
    requires answer(0).TooMany?
    ensures FetchFrom(answer, 0) == Fetched(Returned(answer(0).body), 1)
  {
  }

  /** The page sees an exception only when all three tries failed. */
  lemma {:induction false} ThrowsOnlyAfterThreeFailures(answer: nat -> Attempt)
    ensures FetchFrom(answer, 0).outcome.Threw? <==> forall i :: 0 <= i < MaxRetries ==> !Delivers(answer(i))
  {
    var r := FetchFrom(answer, 0);
    if r.outcome.Threw? {
      assert forall i :: 0 <= i < r.attempts - 1 ==> !Delivers(answer(i));
    } else {
      assert Delivers(answer(r.attempts - 1));
    }
  }

  /** The server's `shouldRetry` hint changes only how long the page waits: two runs whose tries differ only in that hint end alike. */
  predicate SameButHint(a: Attempt, b: Attempt) {
    match a
    case Rejected(_, e) => b.Rejected? && b.error == e
    case _ => a == b
  }

  lemma {:induction false} HintDoesNotMatter(answer: nat -> Attempt, other: nat -> Attempt, count: nat)
    requires count < MaxRetries
    requires forall i :: SameButHint(answer(i), other(i))
    ensures FetchFrom(answer, count) == FetchFrom(other, count)
    decreases MaxRetries - count
  {
    assert SameButHint(answer(count), other(count));
    if !Delivers(answer(count)) && count + 1 < MaxRetries {
      HintDoesNotMatter(answer, other, count + 1);
    }
  }

  /** The reply to `POST /start-purchase`: no connection, or a status with the body's `started_at`. */
  datatype StartReply = Unreachable | Responded(status: int, startedAt: Option<string>)

  datatype SessionOutcome = NoProduct | Reused | Started(startedAt: Option<string>) | SessionFailed(error: string)

  /** What the page ends up showing after a check. */
  datatype Shown =
    | AlreadyChecking          // a check is in progress: the click is ignored
    | NotPurchased             // `hasGamepass` is false: nothing is shown
    | AlreadyClaimed(offered: Option<string>) // claimed before on this browser; a key in the reply is offered again
    | NewKey(key: string)      // the key is displayed and the purchase recorded
    | ExistingKey(key: string) // the key issued earlier is offered again
    | RetryOffered             // no key: the message and a retry button
    | LoginRequired            // starting the session or the second check failed
    | CheckFailed              // the check itself failed

  /** `checkTransactionClaimed`, over the stored `claimed_transactions` entry. */
  function Claims(store: ClaimedStore, transactionId: Option<string>): (r: bool)
    ensures !Truthy(transactionId) ==> !r
    ensures store.ClaimedGarbled? ==> !r
    ensures Truthy(transactionId) && store.ClaimedList? ==> (r <==> transactionId.value in store.ids)
  {
    if !Truthy(transactionId) then false
    else match store
      case ClaimedGarbled => false
      case ClaimedList(ids) => transactionId.value in ids
  }

  /** The key a claimed reply offers again: `response.key` when it is truthy. */
  function KeyOffered(response: CheckResponse): Option<string> {
    if Truthy(response.key) then response.key else None
  }

  class LicenseManager {
    /** `this.product.id` */
    const productId: string
    var rateLimitCache: map<string, int>
    var purchaseAttempts: map<string, nat>
    var isCheckingPurchase: bool
    var pendingSession: Option<Session>
    /** `localStorage`: `lastUsername`, the `purchase_…` records and `claimed_transactions`. */
    var lastUsername: Option<string>
    var purchaseRecords: map<string, PurchaseRecord>
    var claimed: ClaimedStore

    constructor (productId: string, lastUsername: Option<string>, records: map<string, PurchaseRecord>, claimed: ClaimedStore)
      ensures this.productId == productId && this.lastUsername == lastUsername
      ensures purchaseRecords == records && this.claimed == claimed
      ensures rateLimitCache == map[] && purchaseAttempts == map[] && !isCheckingPurchase && pendingSession == None
    {
      this.productId := productId;
      this.lastUsername := lastUsername;
      purchaseRecords := records;
      this.claimed := claimed;
      rateLimitCache := map[];
      purchaseAttempts := map[];
      isCheckingPurchase := false;
      pendingSession := None;
    }

    /** `${username}_${this.product.id}` */
    function AttemptKey(username: string): string
    {
      username + "_" + productId
    }

    /** `purchase_${this.product.id}_${username}` */
    function PurchaseKey(username: string): string
    {
      "purchase_" + productId + "_" + username
    }

    /** `isRateLimited`: limited while the last attempt is under 5 s old (a stored 0 counts as none); otherwise records `now`. */
    method IsRateLimited(username: string, now: int) returns (limited: bool)
      modifies this`rateLimitCache
      ensures var key := AttemptKey(username);
              limited <==> key in old(rateLimitCache) && old(rateLimitCache)[key] != 0
                           && now - old(rateLimitCache)[key] < ThrottleMillis
      ensures rateLimitCache == if limited then old(rateLimitCache) else old(rateLimitCache)[AttemptKey(username) := now]
    {
      var key := AttemptKey(username);
      var lastAttempt := if key in rateLimitCache then rateLimitCache[key] else 0;
      if lastAttempt != 0 && now - lastAttempt < ThrottleMillis {
        return true;
      }
      rateLimitCache := rateLimitCache[key := now];
      return false;
    }

    /** `trackPurchaseAttempt`: one more attempt for the key, and the username remembered. */
    method TrackPurchaseAttempt(username: string)
      modifies this`purchaseAttempts, this`lastUsername
      ensures var key := AttemptKey(username);
              purchaseAttempts == old(purchaseAttempts)[key := (if key in old(purchaseAttempts) then old(purchaseAttempts)[key] else 0) + 1]
      ensures lastUsername == Some(username)
    {
      var key := AttemptKey(username);
      var attempts := if key in purchaseAttempts then purchaseAttempts[key] else 0;
      purchaseAttempts := purchaseAttempts[key := attempts + 1];
      lastUsername := Some(username);
    }

    /** `trackSuccessfulPurchase`: record the purchase, then add the transaction to the claimed list unless it is there.
        `threw` is set when the stored list does not parse; the record is written by then. */
    method TrackSuccessfulPurchase(username: string, transactionId: Option<string>, now: int) returns (threw: bool)
      modifies this`purchaseRecords, this`claimed
      ensures purchaseRecords == old(purchaseRecords)[PurchaseKey(username) := Record(true, now, transactionId)]
      ensures threw <==> Truthy(transactionId) && old(claimed).ClaimedGarbled?
      ensures !Truthy(transactionId) || threw || Claims(old(claimed), transactionId) ==> claimed == old(claimed)
      ensures Truthy(transactionId) && !threw && !Claims(old(claimed), transactionId) ==>
                claimed == ClaimedList(old(claimed).ids + [transactionId.value])
      ensures Truthy(transactionId) && !threw ==> Claims(claimed, transactionId)
    {
      purchaseRecords := purchaseRecords[PurchaseKey(username) := Record(true, now, transactionId)];
      threw := false;
      if Truthy(transactionId) {
        match claimed
        case ClaimedGarbled =>
          threw := true;
        case ClaimedList(ids) =>
          if transactionId.value !in ids {
            claimed := ClaimedList(ids + [transactionId.value]);
          }
      }
    }

    /** `checkExistingPurchase`: the username to prefill, when the last one used has a key issued under a day ago. */
    function ExistingPurchase(now: int): (prefill: Option<string>)
      reads this
      ensures prefill.Some? ==> Some(prefill.value) == lastUsername && prefill.value != ""
      ensures prefill.Some? <==>
                && Truthy(lastUsername)
                && PurchaseKey(lastUsername.value) in purchaseRecords
                && var record := purchaseRecords[PurchaseKey(lastUsername.value)];
                   record.Record? && record.keyIssued && now - record.timestamp < DayMillis
    {
      if !Truthy(lastUsername) then None
      else
        var key := PurchaseKey(lastUsername.value);
        if key !in purchaseRecords then None
        else match purchaseRecords[key]
          case Garbled => None
          case Record(keyIssued, timestamp, _) =>
            if now - timestamp < DayMillis && keyIssued then lastUsername else None
    }

    /** What `startPurchaseSession` ends with from the pending session `pending`, and the pending session after it. */
    function SessionStart(pending: Option<Session>, username: string, reply: StartReply): (SessionOutcome, Option<Session>) {
      if productId == "" then (NoProduct, pending)
      else if pending.Some? && Lower(pending.value.username) == Lower(username) && pending.value.productId == productId
      then (Reused, pending)
      else match reply
        case Unreachable => (SessionFailed("Network"), pending)
        case Responded(status, startedAt) =>
          if status == 401 then (SessionFailed("AUTH"), pending)
          else if !(200 <= status < 300) then (SessionFailed("Failed to start"), pending)
          else (Started(startedAt), if Truthy(startedAt) then Some(Session(username, productId, startedAt.value)) else pending)
    }

    /** `startPurchaseSession`: reuse a session for the same username (any case) and product; otherwise ask the server,
        and keep the session it starts. */
    method StartPurchaseSession(username: string, reply: StartReply) returns (outcome: SessionOutcome)
      modifies this`pendingSession
      ensures var matches := old(pendingSession).Some? && Lower(old(pendingSession).value.username) == Lower(username)
                             && old(pendingSession).value.productId == productId;
              var asks := productId != "" && !matches;
              && (productId == "" ==> outcome == NoProduct)
              && (outcome == Reused <==> productId != "" && matches)
              && (asks && reply == Unreachable ==> outcome == SessionFailed("Network"))
              && (asks && reply.Responded? && reply.status == 401 ==> outcome == SessionFailed("AUTH"))
              && (asks && reply.Responded? && reply.status != 401 && !(200 <= reply.status < 300)
                  ==> outcome == SessionFailed("Failed to start"))
              && (asks && reply.Responded? && 200 <= reply.status < 300 ==> outcome == Started(reply.startedAt))
      ensures pendingSession == if outcome.Started? && Truthy(reply.startedAt)
                                then Some(Session(username, productId, reply.startedAt.value))
                                else old(pendingSession)
      ensures (outcome, pendingSession) == SessionStart(old(pendingSession), username, reply)
    {
      if productId == "" {
        return NoProduct;
      }
      if pendingSession.Some? && Lower(pendingSession.value.username) == Lower(username)
         && pendingSession.value.productId == productId {
        return Reused;
      }
      match reply
      case Unreachable =>
        return SessionFailed("Network");
      case Responded(status, startedAt) =>
        if status == 401 {
          return SessionFailed("AUTH");
        }
        if !(200 <= status < 300) {
          return SessionFailed("Failed to start");
        }
        if Truthy(startedAt) {
          pendingSession := Some(Session(username, productId, startedAt.value));
        }
        return Started(startedAt);
    }

    /** `fetchGamepassCheck`: up to three tries; a 429 or a successful reply ends the loop, a failing status or an
        exception counts as a failed try. */
    method FetchGamepassCheck(username: string, answer: nat -> Attempt) returns (outcome: Outcome, attempts: int)
      ensures Fetched(outcome, attempts) == FetchFrom(answer, 0)
    {
      var retryCount := 0;
      while retryCount < MaxRetries
        invariant retryCount < MaxRetries
        invariant FetchFrom(answer, retryCount) == FetchFrom(answer, 0)
        decreases MaxRetries - retryCount
      {
        match answer(retryCount) {
          case TooMany(body) =>
            return Returned(body), retryCount + 1;
          case Answered(body) =>
            return Returned(body), retryCount + 1;
          case Rejected(shouldRetry, error) =>
            if shouldRetry && retryCount < MaxRetries - 1 {
              // the server asked for a retry: wait 2 s and go round again
              retryCount := retryCount + 1;
              continue;
            }
            // thrown, and handled by the catch below
            retryCount := retryCount + 1;
            if retryCount >= MaxRetries {
              return Threw(error), retryCount;
            }
          case Broken(error) =>
            retryCount := retryCount + 1;
            if retryCount >= MaxRetries {
              return Threw(error), retryCount;
            }
        }
      }
      return NoResponse, retryCount;
    }

    /** What `_handleCheckResponse` does with `response`: the outcome shown, and the purchase records and claimed
        list after it (`records`, `store` before). Only a new key touches storage; a claimed list that does not
        parse is left as it is. */
    ghost predicate Handled(username: string, response: CheckResponse, now: int,
                            records: map<string, PurchaseRecord>, store: ClaimedStore,
                            shown: Shown, records': map<string, PurchaseRecord>, store': ClaimedStore)
    {
      if !response.hasGamepass then shown == NotPurchased && records' == records && store' == store
      else if Claims(store, response.transactionId) then
        shown == AlreadyClaimed(KeyOffered(response)) && records' == records && store' == store
      else if !(response.keyIssued && Truthy(response.key)) then shown == RetryOffered && records' == records && store' == store
      else if !response.isNewKey then shown == ExistingKey(response.key.value) && records' == records && store' == store
      else
        && shown == NewKey(response.key.value)
        && records' == records[PurchaseKey(username) := Record(true, now, response.transactionId)]
        && store' == if Truthy(response.transactionId) && store.ClaimedList?
                     then ClaimedList(store.ids + [response.transactionId.value])
                     else store
    }

    /** `_handleCheckResponse`: a new key is displayed and recorded; a key issued earlier is offered again. */
    method HandleCheckResponse(username: string, response: CheckResponse, now: int) returns (shown: Shown, threw: bool)
      modifies this`purchaseRecords, this`claimed
      ensures Handled(username, response, now, old(purchaseRecords), old(claimed), shown, purchaseRecords, claimed)
      ensures threw <==> shown.NewKey? && Truthy(response.transactionId) && old(claimed).ClaimedGarbled?
    {
      threw := false;
      if !response.hasGamepass {
        return NotPurchased, false;
      }
      if Claims(claimed, response.transactionId) {
        return AlreadyClaimed(KeyOffered(response)), false;
      }
      if response.keyIssued && Truthy(response.key) {
        if response.isNewKey {
          threw := TrackSuccessfulPurchase(username, response.transactionId, now);
          return NewKey(response.key.value), threw;
        }
        return ExistingKey(response.key.value), false;
      }
      return RetryOffered, false;
    }

    /** `checkGamepassAndIssueKey`: ignored while a check runs; otherwise check (starting a session and checking
        again when the server asks for it) and act on the reply. The guard is released on every path. */
    method CheckGamepassAndIssueKey(username: string, first: nat -> Attempt, session: StartReply, second: nat -> Attempt,
                                    now: int)
      returns (shown: Shown)
      modifies this`isCheckingPurchase, this`pendingSession, this`purchaseRecords, this`claimed
      ensures isCheckingPurchase == old(isCheckingPurchase)
      ensures old(isCheckingPurchase) ==> shown == AlreadyChecking && unchanged(this)
      ensures !old(isCheckingPurchase) ==> shown != AlreadyChecking
      ensures !shown.NewKey? ==> purchaseRecords == old(purchaseRecords) && claimed == old(claimed)
      ensures shown.NewKey? ==> exists body :: Received(body, first, second) && body.hasGamepass && body.isNewKey
                                              && Some(shown.key) == body.key && !Claims(old(claimed), body.transactionId)
      ensures FetchFrom(first, 0).outcome.Threw? && !old(isCheckingPurchase) ==> shown == CheckFailed
      ensures !old(isCheckingPurchase) ==>
                Checked(username, first, session, second, now, old(pendingSession), old(purchaseRecords), old(claimed),
                        shown, pendingSession, purchaseRecords, claimed)
    {
      if isCheckingPurchase {
        return AlreadyChecking;
      }
      isCheckingPurchase := true;
      shown := CheckOnce(username, first, session, second, now);
      isCheckingPurchase := false;
    }

    /** `body` is the reply of the first check, or of the second when the first asked for a session. */
    ghost predicate Received(body: CheckResponse, first: nat -> Attempt, second: nat -> Attempt) {
      var r1 := FetchFrom(first, 0).outcome;
      var r2 := FetchFrom(second, 0).outcome;
      r1.Returned? && (body == r1.body || (r1.body.needStart && r2.Returned? && body == r2.body))
    }

    /** A received reply: reported as claimed when its transaction is, otherwise handed to `_handleCheckResponse`. */
    ghost predicate Answered(username: string, response: CheckResponse, now: int,
                             records: map<string, PurchaseRecord>, store: ClaimedStore,
                             shown: Shown, records': map<string, PurchaseRecord>, store': ClaimedStore)
    {
      if Claims(store, response.transactionId) then
        shown == AlreadyClaimed(KeyOffered(response)) && records' == records && store' == store
      else Handled(username, response, now, records, store, shown, records', store')
    }

    /** What one run of the `try` block of `checkGamepassAndIssueKey` shows, and the pending session, purchase
        records and claimed list after it (`pending`, `records`, `store` before). A first check that throws is
        reported as failed. A reply asking for a session starts one; a failed start or a second check that throws
        asks for a login, and otherwise the second reply is acted on. */
    ghost predicate Checked(username: string, first: nat -> Attempt, session: StartReply, second: nat -> Attempt, now: int,
                            pending: Option<Session>, records: map<string, PurchaseRecord>, store: ClaimedStore,
                            shown: Shown,
                            pending': Option<Session>, records': map<string, PurchaseRecord>, store': ClaimedStore)
    {
      var r1 := FetchFrom(first, 0).outcome;
      if !r1.Returned? then shown == CheckFailed && pending' == pending && records' == records && store' == store
      else if !r1.body.needStart then
        pending' == pending && Answered(username, r1.body, now, records, store, shown, records', store')
      else
        var started := SessionStart(pending, username, session);
        var r2 := FetchFrom(second, 0).outcome;
        && pending' == started.1
        && if started.0.SessionFailed? || !r2.Returned? then shown == LoginRequired && records' == records && store' == store
           else Answered(username, r2.body, now, records, store, shown, records', store')
    }

    /** The reply a run acts on when its checks do not throw: the first, or the second when the first asked for a
        session. */
    ghost function Reply(first: nat -> Attempt, second: nat -> Attempt): Option<CheckResponse> {
      var r1 := FetchFrom(first, 0).outcome;
      var r2 := FetchFrom(second, 0).outcome;
      if !r1.Returned? then None
      else if !r1.body.needStart then Some(r1.body)
      else if r2.Returned? then Some(r2.body)
      else None
    }

    /** A run that displayed a new key, over a readable claimed list, guards the purchase: the same replies checked
        again report the transaction as claimed, offer the key again and change no storage. Only a reply without a
        transaction id gets its key displayed and recorded a second time. */
    lemma ReplayReportsClaim(username: string, first: nat -> Attempt, session: StartReply, second: nat -> Attempt,
                             now: int, later: int,
                             pending: Option<Session>, records: map<string, PurchaseRecord>, store: ClaimedStore,
                             shown: Shown,
                             pending1: Option<Session>, records1: map<string, PurchaseRecord>, store1: ClaimedStore,
                             shown2: Shown,
                             pending2: Option<Session>, records2: map<string, PurchaseRecord>, store2: ClaimedStore)
      requires Checked(username, first, session, second, now, pending, records, store, shown, pending1, records1, store1)
      requires shown.NewKey? && store.ClaimedList?
      requires Checked(username, first, session, second, later, pending1, records1, store1,
                       shown2, pending2, records2, store2)
      ensures Reply(first, second).Some?
      ensures var body := Reply(first, second).value;
              if Truthy(body.transactionId)
              then shown2 == AlreadyClaimed(KeyOffered(body)) && records2 == records1 && store2 == store1
              else shown2 == shown && store2 == store1
    {
      var r1 := FetchFrom(first, 0).outcome;
      assert r1.Returned?;
      if !r1.body.needStart {
        AnsweredTwice(username, r1.body, now, later, records, store, shown, records1, store1, shown2, records2, store2);
      } else {
        var started := SessionStart(pending, username, session);
        var r2 := FetchFrom(second, 0).outcome;
        assert !started.0.SessionFailed? && r2.Returned?;
        SessionStartsAgain(pending, username, session);
        AnsweredTwice(username, r2.body, now, later, records, store, shown, records1, store1, shown2, records2, store2);
      }
    }

    /** A session start that did not fail does not fail when asked again from the session it left. */
    lemma SessionStartsAgain(pending: Option<Session>, username: string, reply: StartReply)
      requires !SessionStart(pending, username, reply).0.SessionFailed?
      ensures !SessionStart(SessionStart(pending, username, reply).1, username, reply).0.SessionFailed?
    {
    }

    /** The same reply acted on twice, the first time displaying a new key over a readable claimed list. */
    lemma AnsweredTwice(username: string, body: CheckResponse, now: int, later: int,
                        records: map<string, PurchaseRecord>, store: ClaimedStore, shown: Shown,
                        records1: map<string, PurchaseRecord>, store1: ClaimedStore, shown2: Shown,
                        records2: map<string, PurchaseRecord>, store2: ClaimedStore)
      requires Answered(username, body, now, records, store, shown, records1, store1)
      requires shown.NewKey? && store.ClaimedList?
      requires Answered(username, body, later, records1, store1, shown2, records2, store2)
      ensures if Truthy(body.transactionId)
              then shown2 == AlreadyClaimed(KeyOffered(body)) && records2 == records1 && store2 == store1
              else shown2 == shown && store2 == store1
    {
      assert !Claims(store, body.transactionId);
      if Truthy(body.transactionId) {
        assert store1 == ClaimedList(store.ids + [body.transactionId.value]);
        assert Claims(store1, body.transactionId);
      } else {
        assert store1 == store;
      }
    }

    /** A reply received by `checkGamepassAndIssueKey`: reported as claimed when its transaction is (offering its key
        again), otherwise handed to `_handleCheckResponse`. */
    method AnswerReply(username: string, response: CheckResponse, now: int) returns (shown: Shown)
      modifies this`purchaseRecords, this`claimed
      ensures Answered(username, response, now, old(purchaseRecords), old(claimed), shown, purchaseRecords, claimed)
      ensures shown.NewKey? ==> response.hasGamepass && response.isNewKey && Some(shown.key) == response.key
                                && !Claims(old(claimed), response.transactionId)
    {
      if Truthy(response.transactionId) && Claims(claimed, response.transactionId) {
        return AlreadyClaimed(KeyOffered(response));
      }
      // a claimed list that does not parse makes the recording throw after the key is displayed;
      // only the status message differs then
      var threw;
      shown, threw := HandleCheckResponse(username, response, now);
    }

    /** The `try` block of `checkGamepassAndIssueKey`, with both of its `catch` handlers. */
    method CheckOnce(username: string, first: nat -> Attempt, session: StartReply, second: nat -> Attempt, now: int)
      returns (shown: Shown)
      modifies this`pendingSession, this`purchaseRecords, this`claimed
      ensures shown != AlreadyChecking
      ensures !shown.NewKey? ==> purchaseRecords == old(purchaseRecords) && claimed == old(claimed)
      ensures shown.NewKey? ==> exists body :: Received(body, first, second) && body.hasGamepass && body.isNewKey
                                              && Some(shown.key) == body.key && !Claims(old(claimed), body.transactionId)
      ensures FetchFrom(first, 0).outcome.Threw? ==> shown == CheckFailed
      ensures Checked(username, first, session, second, now, old(pendingSession), old(purchaseRecords), old(claimed),
                      shown, pendingSession, purchaseRecords, claimed)
    {
      var outcome, _ := FetchGamepassCheck(username, first);
      if !outcome.Returned? {
        return CheckFailed;
      }
      var response := outcome.body;
      if response.needStart {
        var started := StartPurchaseSession(username, session);
        if started.SessionFailed? {
          return LoginRequired;
        }
        var retried, _ := FetchGamepassCheck(username, second);
        if !retried.Returned? {
          return LoginRequired;
        }
        assert Received(retried.body, first, second);
        shown := AnswerReply(username, retried.body, now);
        return;
      }
      assert Received(response, first, second);
      shown := AnswerReply(username, response, now);
    }
  }

  /** A purchase recorded now is offered for prefill on a later visit within a day, and not after. */
  method RecordThenRevisit(manager: LicenseManager, username: string, transactionId: Option<string>, now: int, later: int)
    returns (prefill: Option<string>)
    requires username != ""
    modifies manager
    ensures manager.lastUsername == Some(username)
    ensures prefill.Some? <==> later - now < DayMillis
    ensures prefill.Some? ==> prefill.value == username
  {
    manager.TrackPurchaseAttempt(username);
    var _ := manager.TrackSuccessfulPurchase(username, transactionId, now);
    prefill := manager.ExistingPurchase(later);
  }

  /** Recording the same transaction twice adds it to a readable claimed list at most once. */
  method RecordTwice(manager: LicenseManager, username: string, transactionId: string, now: int, later: int)
    requires transactionId != "" && manager.claimed.ClaimedList?
    modifies manager
    ensures manager.claimed == ClaimedList(if transactionId in old(manager.claimed.ids) then old(manager.claimed.ids)
                                           else old(manager.claimed.ids) + [transactionId])
  {
    var _ := manager.TrackSuccessfulPurchase(username, Some(transactionId), now);
    var _ := manager.TrackSuccessfulPurchase(username, Some(transactionId), later);
  }
}
