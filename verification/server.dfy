/** The key-redemption endpoint of `server.py`: per-key throttling, a
    time-to-live response cache, the cached wrappers around the two oracle
    calls (username lookup, gamepass ownership), key generation and the
    `/check-gamepass` decision over the stored `user_data` flags.

    The module-level globals of the source (the lock, `rate_limit_cache`,
    `request_cache`) and the `user_data` document become the fields of one
    `RedemptionServer` object. Replies of the two oracles, the random token and
    the clock are parameters. Times are integers in microseconds, the
    resolution of Python's `datetime`. */
module Redemption {
  import opened Wrappers
  import opened Text

  const KeyPrefix := "ByorlHub_"
  const MicrosPerSecond := 1_000_000
  const UserIdCacheSeconds := 300
  const UserFetchLimitSeconds := 15
  const OwnershipCacheSeconds := 30
  const OwnershipCheckLimitSeconds := 10
  const GamepassLinkBase := "https://www.roblox.com/game-pass/"

  // ---------------------------------------------------------------------------
  // Key generation
  // ---------------------------------------------------------------------------

  /** `"ByorlHub_" + token.replace('_', '')` for a token drawn by `secrets.token_urlsafe(16)`. */
  function GenerateKey(token: string): (key: string)
    ensures |key| >= |KeyPrefix| && key[..|KeyPrefix|] == KeyPrefix
    ensures '_' !in key[|KeyPrefix|..]
  {
    KeyPrefix + Without(token, '_')
  }

  /** The part after the prefix is the token minus its underscores: every other character survives, `-` included. */
  lemma GenerateKeyKeepsToken(token: string, c: char)
    ensures multiset(GenerateKey(token)[|KeyPrefix|..])[c] == if c == '_' then 0 else multiset(token)[c]
  {
    assert GenerateKey(token)[|KeyPrefix|..] == Without(token, '_');
    WithoutCounts(token, '_', c);
  }

  /** A token without underscores is used verbatim, so the token can be read back from the key. */
  lemma GenerateKeyRoundTrip(token: string)
    requires '_' !in token
    ensures GenerateKey(token) == KeyPrefix + token
    ensures GenerateKey(token)[|KeyPrefix|..] == token
  {
    WithoutAbsent(token, '_');
  }

  // ---------------------------------------------------------------------------
  // Cache keys, cached answers, oracle replies, requests and responses
  // ---------------------------------------------------------------------------

  /** Keys of `rate_limit_cache`: `user_fetch_<lowercased name>`, `gamepass_check_<user id>_<gamepass id>`. */
  datatype RateKey = UserFetch(name: string) | GamepassCheck(userId: int, gamepassId: string)

  /** Keys of `request_cache`: `user_id_<lowercased name>`, `gamepass_<user id>_<gamepass id>`. */
  datatype CacheKey = UserIdOf(name: string) | OwnershipOf(userId: int, gamepassId: string)

  /** What `request_cache` stores: `(id, None)`, `(None, "USER_NOT_FOUND")` or `(bool, None)`. */
  datatype Answer = UserFound(id: int) | UserMissing | Ownership(owned: bool)

  datatype Stamped = Stamped(answer: Answer, at: int)

  datatype LookupError = RateLimited | UserNotFound | RequestFailed(reason: string)

  /** The user-search endpoint: HTTP 429, the ids of the matches, or a failed request. */
  datatype LookupReply = LookupTooMany | SearchResult(ids: seq<int>) | LookupFailed(reason: string)

  /** The inventory endpoint: HTTP 429, whether its `data` list is non-empty, or a failed request. */
  datatype OwnershipReply = OwnershipTooMany | Inventory(owned: bool) | OwnershipFailed(reason: string)

  datatype Product = Product(name: string, gamepassUrl: Option<string>)

  /** The JSON body of `/check-gamepass`: an object with optional fields, or anything else. */
  datatype Request = JsonObject(username: Option<string>, gamepassId: Option<string>) | NotAnObject

  datatype Reply =
    | Busy                                          // 429, shouldRetry: another request holds the lock
    | MissingFields                                 // 400
    | UnsupportedGamepass                           // 400
    | Throttled(gamepassLink: string)               // 429, shouldRetry
    | UsernameNotFound(gamepassLink: string)        // 404
    | LookupError(reason: string, gamepassLink: string)  // 500
    | NotOwned(gamepassLink: string)                // 200, redirect
    | AlreadyRedeemed(productName: string)          // 200
    | KeyIssued(key: string)                        // 200
    | Malformed                                     // 500: the body is not a JSON object

  function Status(r: Reply): int {
    match r
    case Busy => 429
    case MissingFields => 400
    case UnsupportedGamepass => 400
    case Throttled(_) => 429
    case UsernameNotFound(_) => 404
    case LookupError(_, _) => 500
    case NotOwned(_) => 200
    case AlreadyRedeemed(_) => 200
    case KeyIssued(_) => 200
    case Malformed => 500
  }

  /** `user_data`: username -> gamepass id -> "a key was issued for the current ownership". */
  type UserData = map<string, map<string, bool>>

  /** `user_data[username].get(gamepass_id, False)` for a user that may be absent. */
  predicate Redeemed(data: UserData, username: string, gamepassId: string) {
    username in data && gamepassId in data[username] && data[username][gamepassId]
  }

  /** The request passes validation: a JSON object with a non-empty username and a supported gamepass id. */
  predicate Admissible(request: Request, products: map<string, Product>) {
    request.JsonObject? && Truthy(request.username) && Truthy(request.gamepassId)
    && request.gamepassId.value in products
  }

  /** The entry a username gets on first sight: every configured product set to False. */
  method NewUserEntry(productIds: set<string>) returns (entry: map<string, bool>)
    ensures entry.Keys == productIds
    ensures forall id :: id in entry ==> !entry[id]
  {
    entry := map[];
    var todo := productIds;
    while todo != {}
      invariant todo <= productIds
      invariant entry.Keys == productIds - todo
      invariant forall id :: id in entry ==> !entry[id]
      decreases todo
    {
      var id :| id in todo;
      entry := entry[id := false];
      todo := todo - {id};
    }
  }

  /** A request cache is well shaped when user keys hold user answers and ownership keys hold ownership answers. */
  ghost predicate WellShaped(cache: map<CacheKey, Stamped>) {
    forall k :: k in cache ==> (k.UserIdOf? <==> !cache[k].answer.Ownership?)
  }

  /** Some cached ownership answer for `gamepassId` says "owned". */
  ghost predicate CachedOwned(cache: map<CacheKey, Stamped>, gamepassId: string) {
    exists k :: k in cache && k.OwnershipOf? && k.gamepassId == gamepassId && cache[k].answer == Ownership(true)
  }

  /** `get_cached_response` on a given cache: the stored answer while it is younger than `maxAgeSeconds`, else nothing. */
  function CachedAnswer(cache: map<CacheKey, Stamped>, key: CacheKey, maxAgeSeconds: nat, now: int): (r: Option<Answer>)
    ensures r.Some? <==> key in cache && now - cache[key].at < maxAgeSeconds * MicrosPerSecond
    ensures r.Some? ==> r.value == cache[key].answer
  {
    if key in cache && now - cache[key].at < maxAgeSeconds * MicrosPerSecond
    then Some(cache[key].answer)
    else None
  }

  /** `is_rate_limited` answers True: the key holds a time younger than the limit. */
  predicate Limited(rate: map<RateKey, int>, key: RateKey, limitSeconds: nat, now: int) {
    key in rate && now - rate[key] < limitSeconds * MicrosPerSecond
  }

  /** The pair `fetch_user_id` returns, as a function of the caches before the call: a fresh cached
      answer; else `RATE_LIMITED` inside the 15 s window; else the search endpoint's verdict
      (HTTP 429, the first match, no match, or the failure's text). */
  function UserLookup(cache: map<CacheKey, Stamped>, rate: map<RateKey, int>, username: string,
                      reply: LookupReply, now: int): (r: (Option<int>, Option<LookupError>))
    ensures r.0.Some? <==> r.1.None?
    ensures r.0.Some? ==> CachedAnswer(cache, UserIdOf(Lower(username)), UserIdCacheSeconds, now) == Some(UserFound(r.0.value))
                          || (reply.SearchResult? && reply.ids != [] && r.0.value == reply.ids[0])
    ensures r.1.Some? && r.1.value.RequestFailed? ==> reply == LookupFailed(r.1.value.reason)
  {
    var name := Lower(username);
    var hit := CachedAnswer(cache, UserIdOf(name), UserIdCacheSeconds, now);
    if hit.Some? then
      (if hit.value.UserFound? then (Some(hit.value.id), None) else (None, Some(UserNotFound)))
    else if Limited(rate, UserFetch(name), UserFetchLimitSeconds, now) then
      (None, Some(RateLimited))
    else
      match reply
      case LookupTooMany => (None, Some(RateLimited))
      case SearchResult(ids) => if ids != [] then (Some(ids[0]), None) else (None, Some(UserNotFound))
      case LookupFailed(reason) => (None, Some(RequestFailed(reason)))
  }

  /** The pair `check_gamepass_ownership` returns, as a function of the caches before the call: a fresh
      cached answer; else `RATE_LIMITED` inside the 10 s window; else the inventory endpoint's verdict. */
  function OwnershipLookup(cache: map<CacheKey, Stamped>, rate: map<RateKey, int>, userId: int, gamepassId: string,
                           reply: OwnershipReply, now: int): (r: (Option<bool>, Option<LookupError>))
    requires WellShaped(cache)
    ensures r.0.Some? <==> r.1.None?
    ensures r.1.Some? ==> r.1.value.RateLimited? || r.1.value.RequestFailed?
    ensures r.1.Some? && r.1.value.RequestFailed? ==> reply == OwnershipFailed(r.1.value.reason)
    ensures r.0 == Some(true) ==> reply == Inventory(true) || CachedOwned(cache, gamepassId)
  {
    var key := OwnershipOf(userId, gamepassId);
    var hit := CachedAnswer(cache, key, OwnershipCacheSeconds, now);
    if hit.Some? then
      (Some(hit.value.owned), None)
    else if Limited(rate, GamepassCheck(userId, gamepassId), OwnershipCheckLimitSeconds, now) then
      (None, Some(RateLimited))
    else
      match reply
      case OwnershipTooMany => (None, Some(RateLimited))
      case Inventory(b) => (Some(b), None)
      case OwnershipFailed(reason) => (None, Some(RequestFailed(reason)))
  }

  /** The entry `username` has once the handler has looked at it: the stored one, or a fresh all-False one. */
  function EntryFor(products: map<string, Product>, data: UserData, username: string): map<string, bool> {
    if username in data then data[username] else map id | id in products.Keys :: false
  }

  /** The last step of `/check-gamepass`, once both lookups are through: the reply and the new `user_data`
      for the ownership answer `owned` (nothing when the ownership request failed). Anything but a
      confirmed "owned" resets the flag and redirects to the gamepass page; a confirmed owner whose
      flag is set gets no key; otherwise a key is issued and the flag is set. */
  ghost predicate Settled(products: map<string, Product>, data: UserData, username: string, gamepassId: string,
                          owned: Option<bool>, token: string, reply: Reply, data': UserData)
    requires gamepassId in products
  {
    var entry := EntryFor(products, data, username);
    var product := products[gamepassId];
    var link := product.gamepassUrl.GetOr(GamepassLinkBase + gamepassId);
    if owned != Some(true) then
      reply == NotOwned(link) && data' == data[username := entry[gamepassId := false]]
    else if Redeemed(data, username, gamepassId) then
      reply == AlreadyRedeemed(product.name) && data' == data
    else
      reply == KeyIssued(GenerateKey(token)) && data' == data[username := entry[gamepassId := true]]
  }

  /** The decision of `/check-gamepass` for a validated request, from the state before it: a throttled,
      unknown or failed username lookup and a throttled ownership check are reported with the default
      gamepass link and change no flag; every other outcome is `Settled`. The ownership lookup is
      evaluated on the caches before the request, which the username lookup does not touch at its keys. */
  ghost predicate Decides(products: map<string, Product>, data: UserData, cache: map<CacheKey, Stamped>,
                          rate: map<RateKey, int>, username: string, gamepassId: string,
                          lookup: LookupReply, ownership: OwnershipReply, token: string, now: int,
                          reply: Reply, data': UserData)
    requires WellShaped(cache) && gamepassId in products
  {
    var link := GamepassLinkBase + gamepassId;
    var user := UserLookup(cache, rate, username, lookup, now);
    if user.1 == Some(RateLimited) then reply == Throttled(link) && data' == data
    else if user.1 == Some(UserNotFound) then reply == UsernameNotFound(link) && data' == data
    else if user.0.None? then reply == LookupError(user.1.value.reason, link) && data' == data
    else
      var owns := OwnershipLookup(cache, rate, user.0.value, gamepassId, ownership, now);
      if owns.1 == Some(RateLimited) then reply == Throttled(link) && data' == data
      else Settled(products, data, username, gamepassId, owns.0, token, reply, data')
  }

  class RedemptionServer {
    /** `PRODUCTS_CONFIG`: gamepass id -> product; its keys are `SUPPORTED_GAMEPASSES`. */
    const products: map<string, Product>
    /** Held while one `/check-gamepass` request is in progress (`lock`, acquired without blocking). */
    var busy: bool
    var rateLimitCache: map<RateKey, int>
    var requestCache: map<CacheKey, Stamped>
    /** The contents of `user_data.json`. */
    var userData: UserData

    ghost predicate Valid()
      reads this
    {
      WellShaped(requestCache)
    }

    constructor (products: map<string, Product>, stored: UserData)
      ensures this.products == products && userData == stored
      ensures !busy && rateLimitCache == map[] && requestCache == map[]
      ensures Valid()
    {
      this.products := products;
      userData := stored;
      busy := false;
      rateLimitCache := map[];
      requestCache := map[];
    }

    /** `is_rate_limited`: limited while the last recorded request is younger than the limit; otherwise records `now`. */
    method IsRateLimited(key: RateKey, limitSeconds: nat, now: int) returns (limited: bool)
      modifies this`rateLimitCache
      ensures limited <==> key in old(rateLimitCache) && now - old(rateLimitCache)[key] < limitSeconds * MicrosPerSecond
      ensures rateLimitCache == if limited then old(rateLimitCache) else old(rateLimitCache)[key := now]
    {
      if key in rateLimitCache && now - rateLimitCache[key] < limitSeconds * MicrosPerSecond {
        return true;
      }
      rateLimitCache := rateLimitCache[key := now];
      return false;
    }

    /** `cache_response`: overwrites whatever the key held before. */
    method CacheResponse(key: CacheKey, answer: Answer, now: int)
      requires Valid()
      requires key.UserIdOf? <==> !answer.Ownership?
      modifies this`requestCache
      ensures Valid()
      ensures requestCache == old(requestCache)[key := Stamped(answer, now)]
      ensures forall age: nat, t :: CachedAnswer(requestCache, key, age, t) ==
                (if t - now < age * MicrosPerSecond then Some(answer) else None)
    {
      requestCache := requestCache[key := Stamped(answer, now)];
    }

    /** `fetch_user_id`: the cache (5 minutes), then the per-name throttle (15 s), then the oracle. */
    method FetchUserId(username: string, reply: LookupReply, now: int) returns (id: Option<int>, error: Option<LookupError>)
      requires Valid()
      modifies this`rateLimitCache, this`requestCache
      ensures Valid()
      ensures (id, error) == UserLookup(old(requestCache), old(rateLimitCache), username, reply, now)
      ensures var name := Lower(username);
              var open := CachedAnswer(old(requestCache), UserIdOf(name), UserIdCacheSeconds, now).None?
                          && !Limited(old(rateLimitCache), UserFetch(name), UserFetchLimitSeconds, now);
              && rateLimitCache == (if open then old(rateLimitCache)[UserFetch(name) := now] else old(rateLimitCache))
              && (open && reply.LookupTooMany? ==> error == Some(RateLimited))
              && (open && reply.SearchResult? && reply.ids != [] ==> id == Some(reply.ids[0]))
              && (open && reply == SearchResult([]) ==> error == Some(UserNotFound))
              && (open && reply.LookupFailed? ==> error == Some(RequestFailed(reply.reason)))
              && requestCache == (if open && reply.SearchResult?
                                  then old(requestCache)[UserIdOf(name) := Stamped(if reply.ids != [] then UserFound(reply.ids[0]) else UserMissing, now)]
                                  else old(requestCache))
    {
      var name := Lower(username);
      var hit := CachedAnswer(requestCache, UserIdOf(name), UserIdCacheSeconds, now);
      if hit.Some? {
        if hit.value.UserFound? {
          return Some(hit.value.id), None;
        }
        return None, Some(UserNotFound);
      }
      var limited := IsRateLimited(UserFetch(name), UserFetchLimitSeconds, now);
      if limited {
        return None, Some(RateLimited);
      }
      match reply
      case LookupTooMany =>
        return None, Some(RateLimited);
      case SearchResult(ids) =>
        if ids != [] {
          CacheResponse(UserIdOf(name), UserFound(ids[0]), now);
          return Some(ids[0]), None;
        }
        CacheResponse(UserIdOf(name), UserMissing, now);
        return None, Some(UserNotFound);
      case LookupFailed(reason) =>
        return None, Some(RequestFailed(reason));
    }

    /** `check_gamepass_ownership`: the cache (30 s), then the per-user-and-gamepass throttle (10 s), then the oracle. */
    method CheckOwnership(userId: int, gamepassId: string, reply: OwnershipReply, now: int)
      returns (owned: Option<bool>, error: Option<LookupError>)
      requires Valid()
      modifies this`rateLimitCache, this`requestCache
      ensures Valid()
      ensures (owned, error) == OwnershipLookup(old(requestCache), old(rateLimitCache), userId, gamepassId, reply, now)
      ensures var key, checkKey := OwnershipOf(userId, gamepassId), GamepassCheck(userId, gamepassId);
              var open := CachedAnswer(old(requestCache), key, OwnershipCacheSeconds, now).None?
                          && !Limited(old(rateLimitCache), checkKey, OwnershipCheckLimitSeconds, now);
              && rateLimitCache == (if open then old(rateLimitCache)[checkKey := now] else old(rateLimitCache))
              && (open && reply.OwnershipTooMany? ==> error == Some(RateLimited))
              && (open && reply.Inventory? ==> owned == Some(reply.owned))
              && (open && reply.OwnershipFailed? ==> error == Some(RequestFailed(reply.reason)))
              && requestCache == (if open && reply.Inventory?
                                  then old(requestCache)[key := Stamped(Ownership(reply.owned), now)]
                                  else old(requestCache))
    {
      var key := OwnershipOf(userId, gamepassId);
      var hit := CachedAnswer(requestCache, key, OwnershipCacheSeconds, now);
      if hit.Some? {
        return Some(hit.value.owned), None;
      }
      var limited := IsRateLimited(GamepassCheck(userId, gamepassId), OwnershipCheckLimitSeconds, now);
      if limited {
        return None, Some(RateLimited);
      }
      match reply
      case OwnershipTooMany =>
        return None, Some(RateLimited);
      case Inventory(b) =>
        CacheResponse(key, Ownership(b), now);
        return Some(b), None;
      case OwnershipFailed(reason) =>
        return None, Some(RequestFailed(reason));
    }

    /** `/check-gamepass`: a non-blocking lock around validation, the two cached oracle calls and the redemption flags. */
    method CheckGamepass(request: Request, lookup: LookupReply, ownership: OwnershipReply, token: string, now: int)
      returns (reply: Reply)
      requires Valid()
      modifies this
      ensures Valid()
      ensures busy == old(busy)
      ensures old(busy) ==> reply == Busy && unchanged(this)
      ensures !old(busy) && !Admissible(request, products) ==>
                && reply == (if !request.JsonObject? then Malformed
                             else if !Truthy(request.username) || !Truthy(request.gamepassId) then MissingFields
                             else UnsupportedGamepass)
                && unchanged(this)
      ensures !old(busy) && Admissible(request, products) ==>
                Decides(products, old(userData), old(requestCache), old(rateLimitCache),
                        request.username.value, request.gamepassId.value, lookup, ownership, token, now, reply, userData)
    {
      if busy {
        return Busy;
      }
      busy := true;
      reply := Redeem(request, lookup, ownership, token, now);
      busy := false;
    }

    /** The body of `check_gamepass` between acquiring and releasing the lock: validation, then `Serve`. */
    method Redeem(request: Request, lookup: LookupReply, ownership: OwnershipReply, token: string, now: int)
      returns (reply: Reply)
      requires Valid()
      modifies this`rateLimitCache, this`requestCache, this`userData
      ensures Valid()
      ensures !Admissible(request, products) ==>
                && reply == (if !request.JsonObject? then Malformed
                             else if !Truthy(request.username) || !Truthy(request.gamepassId) then MissingFields
                             else UnsupportedGamepass)
                && unchanged(this)
      ensures Admissible(request, products) ==>
                Decides(products, old(userData), old(requestCache), old(rateLimitCache),
                        request.username.value, request.gamepassId.value, lookup, ownership, token, now, reply, userData)
    {
      if !request.JsonObject? {
        return Malformed;
      }
      if !Truthy(request.username) || !Truthy(request.gamepassId) {
        return MissingFields;
      }
      var username, gamepassId := request.username.value, request.gamepassId.value;
      if gamepassId !in products {
        return UnsupportedGamepass;
      }
      reply := Serve(username, gamepassId, lookup, ownership, token, now);
    }

    /** A validated request: the username lookup, the ownership lookup, then `Settle`. */
    method Serve(username: string, gamepassId: string, lookup: LookupReply, ownership: OwnershipReply, token: string, now: int)
      returns (reply: Reply)
      requires Valid() && gamepassId in products
      modifies this`rateLimitCache, this`requestCache, this`userData
      ensures Valid()
      ensures Decides(products, old(userData), old(requestCache), old(rateLimitCache),
                      username, gamepassId, lookup, ownership, token, now, reply, userData)
    {
      var defaultLink := GamepassLinkBase + gamepassId;
      var userId, userError := FetchUserId(username, lookup, now);
      if userError == Some(RateLimited) {
        return Throttled(defaultLink);
      }
      if userError == Some(UserNotFound) {
        return UsernameNotFound(defaultLink);
      }
      if userId.None? {
        return LookupError(userError.value.reason, defaultLink);
      }
      // The username lookup wrote at most its own keys, so the ownership lookup sees the caches as they were.
      assert CachedAnswer(requestCache, OwnershipOf(userId.value, gamepassId), OwnershipCacheSeconds, now)
          == CachedAnswer(old(requestCache), OwnershipOf(userId.value, gamepassId), OwnershipCacheSeconds, now);
      assert Limited(rateLimitCache, GamepassCheck(userId.value, gamepassId), OwnershipCheckLimitSeconds, now)
          == Limited(old(rateLimitCache), GamepassCheck(userId.value, gamepassId), OwnershipCheckLimitSeconds, now);
      var owned, ownedError := CheckOwnership(userId.value, gamepassId, ownership, now);
      if ownedError == Some(RateLimited) {
        return Throttled(defaultLink);
      }
      reply := Settle(username, gamepassId, owned, token);
    }

    /** The redemption flags: reset for an unconfirmed owner, untouched for a redeemed one, set when a key is issued. */
    method Settle(username: string, gamepassId: string, owned: Option<bool>, token: string) returns (reply: Reply)
      requires gamepassId in products
      modifies this`userData
      ensures Settled(products, old(userData), username, gamepassId, owned, token, reply, userData)
    {
      var entry: map<string, bool>;
      if username in userData {
        entry := userData[username];
      } else {
        entry := NewUserEntry(products.Keys);
        assert entry == EntryFor(products, userData, username);
      }
      var product := products[gamepassId];
      var link := product.gamepassUrl.GetOr(GamepassLinkBase + gamepassId);

      if owned != Some(true) {
        userData := userData[username := entry[gamepassId := false]];
        return NotOwned(link);
      }
      if gamepassId in entry && entry[gamepassId] {
        return AlreadyRedeemed(product.name);
      }
      var key := GenerateKey(token);
      userData := userData[username := entry[gamepassId := true]];
      return KeyIssued(key);
    }
  }

  // ---------------------------------------------------------------------------
  // What a decision guarantees
  // ---------------------------------------------------------------------------

  /** A key is issued only to a confirmed owner whose flag was False; the key is the token's, and the flag is then True. */
  lemma DecidesIssueOnlyOnce(products: map<string, Product>, data: UserData, cache: map<CacheKey, Stamped>,
                             rate: map<RateKey, int>, username: string, gamepassId: string,
                             lookup: LookupReply, ownership: OwnershipReply, token: string, now: int,
                             reply: Reply, data': UserData)
    requires WellShaped(cache) && gamepassId in products
    requires Decides(products, data, cache, rate, username, gamepassId, lookup, ownership, token, now, reply, data')
    requires reply.KeyIssued?
    ensures reply.key == GenerateKey(token)
    ensures !Redeemed(data, username, gamepassId) && Redeemed(data', username, gamepassId)
    ensures ownership == Inventory(true) || CachedOwned(cache, gamepassId)
    ensures forall v :: v != username ==> (v in data' <==> v in data) && (v in data ==> data'[v] == data[v])
  {
  }

  /** Only a key, an unconfirmed ownership or an already redeemed flag come from the flags step; every
      earlier refusal leaves `user_data` as it was, and so does an already redeemed flag. */
  lemma DecidesKeepsFlags(products: map<string, Product>, data: UserData, cache: map<CacheKey, Stamped>,
                          rate: map<RateKey, int>, username: string, gamepassId: string,
                          lookup: LookupReply, ownership: OwnershipReply, token: string, now: int,
                          reply: Reply, data': UserData)
    requires WellShaped(cache) && gamepassId in products
    requires Decides(products, data, cache, rate, username, gamepassId, lookup, ownership, token, now, reply, data')
    ensures reply.Throttled? || reply.UsernameNotFound? || reply.LookupError? || reply.NotOwned?
            || reply.AlreadyRedeemed? || reply.KeyIssued?
    ensures !reply.KeyIssued? && !reply.NotOwned? ==> data' == data
    ensures reply.NotOwned? ==> !Redeemed(data', username, gamepassId)
    ensures reply.AlreadyRedeemed? ==> Redeemed(data, username, gamepassId)
  {
  }

  /** After a key has been issued, no later decision for the same username and gamepass issues another,
      whatever the caches and the oracles answer, until a decision resets the flag. */
  lemma NoSecondKey(products: map<string, Product>, data: UserData, cache: map<CacheKey, Stamped>,
                    rate: map<RateKey, int>, username: string, gamepassId: string,
                    lookup: LookupReply, ownership: OwnershipReply, token: string, now: int,
                    reply: Reply, data': UserData,
                    cache': map<CacheKey, Stamped>, rate': map<RateKey, int>,
                    lookup': LookupReply, ownership': OwnershipReply, token': string, now': int,
                    reply': Reply, data'': UserData)
    requires WellShaped(cache) && WellShaped(cache') && gamepassId in products
    requires Decides(products, data, cache, rate, username, gamepassId, lookup, ownership, token, now, reply, data')
    requires Decides(products, data', cache', rate', username, gamepassId, lookup', ownership', token', now', reply', data'')
    requires reply.KeyIssued?
    ensures !reply'.KeyIssued?
  {
    DecidesIssueOnlyOnce(products, data, cache, rate, username, gamepassId, lookup, ownership, token, now, reply, data');
    if reply'.KeyIssued? {
      DecidesIssueOnlyOnce(products, data', cache', rate', username, gamepassId, lookup', ownership', token', now', reply', data'');
    }
  }

  /** Two checks in a row for the same request never both issue a key, whatever the lookups answer. */
  method ConsecutiveChecksIssueOnce(server: RedemptionServer, request: Request,
                                    lookup1: LookupReply, ownership1: OwnershipReply, token1: string, now1: int,
                                    lookup2: LookupReply, ownership2: OwnershipReply, token2: string, now2: int)
    returns (first: Reply, second: Reply)
    requires server.Valid() && !server.busy
    modifies server
    ensures !(first.KeyIssued? && second.KeyIssued?)
  {
    ghost var data0, cache0, rate0 := server.userData, server.requestCache, server.rateLimitCache;
    first := server.CheckGamepass(request, lookup1, ownership1, token1, now1);
    ghost var data1, cache1, rate1 := server.userData, server.requestCache, server.rateLimitCache;
    second := server.CheckGamepass(request, lookup2, ownership2, token2, now2);
    if first.KeyIssued? && second.KeyIssued? {
      NoSecondKey(server.products, data0, cache0, rate0, request.username.value, request.gamepassId.value,
                  lookup1, ownership1, token1, now1, first, data1,
                  cache1, rate1, lookup2, ownership2, token2, now2, second, server.userData);
    }
  }
}
