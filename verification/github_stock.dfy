/** The list logic of `GitHubStockManager` in `github_stock.py`: how the text
    of a stock file is read back as a list of keys, and which commit each of
    the updating operations sends.

    The GitHub contents API is not modelled: what a GET returned, how the JSON
    parser classified the text, and whether the PUT went through are inputs.
    Every operation returns the commit it would send (`None` when it sends
    none) next to the boolean the source returns. */
module GitHubStock {
  import opened Wrappers
  import opened Text
  import opened Seqs

  /** The GET of a file: 404, any failure (HTTP error, undecodable content), or the decoded text. */
  datatype FileFetch = NotFound | FetchFailed | Fetched(text: string)

  /** `json.loads` on the stripped text: a list (of keys), some other JSON value, or a decode error. */
  datatype JsonReading = JsonList(items: seq<string>) | JsonOther | NotJson

  /** The GET that `update_file_content` makes first: 200 with the blob sha; 404; another status below 400,
      which `raise_for_status` lets through; or a failure (a status from 400 up, no connection, a 200 body
      without a sha). */
  datatype PriorRead = Found(sha: string) | Absent | OtherStatus(status: int) | ReadFailed

  /** The body of the PUT: commit message, the keys (serialised as a JSON list) and the sha when known. */
  datatype Commit = Commit(message: string, keys: seq<string>, sha: Option<string>)

  // ---------------------------------------------------------------------------
  // Reading a stock file
  // ---------------------------------------------------------------------------

  /** A key as the line format stores it: not blank, no surrounding whitespace. */
  predicate CleanKey(k: string) {
    k != [] && Strip(k) == k
  }

  /** `[line.strip() for line in lines if line.strip()]` */
  function CleanLines(lines: seq<string>): (r: seq<string>)
    ensures |r| <= |lines|
    ensures forall i :: 0 <= i < |r| ==> CleanKey(r[i])
  {
    if lines == [] then []
    else
      var s := Strip(lines[0]);
      var rest := CleanLines(lines[1..]);
      if s == [] then rest
      else
        StripKeepsTrimmed(s);
        assert CleanKey(s);
        [s] + rest
  }

  /** The plain-text format: one key per line. */
  function StockLines(content: string): seq<string> {
    CleanLines(Split(content, '\n'))
  }

  /** `get_file_content`: the keys of a stock file, given its GET and the JSON reading of its stripped text. */
  function GetFileContent(fetch: FileFetch, parse: string -> JsonReading): (keys: seq<string>)
    ensures !fetch.Fetched? ==> keys == []
    ensures fetch.Fetched? && Strip(fetch.text) == [] ==> keys == []
    ensures fetch.Fetched? && Strip(fetch.text) != [] ==>
              match parse(Strip(fetch.text))
              case JsonList(items) => keys == items
              case JsonOther => keys == []
              case NotJson => forall i :: 0 <= i < |keys| ==> CleanKey(keys[i])
  {
    match fetch
    case NotFound => []
    case FetchFailed => []
    case Fetched(text) =>
      var content := Strip(text);
      if content == [] then []
      else
        match parse(content)
        case JsonList(items) => items
        case JsonOther => []
        case NotJson => StockLines(content)
  }

  /** Lines that are already clean are kept, all of them and in order. */
  lemma {:induction false} CleanLinesKeepsClean(lines: seq<string>)
    requires forall i :: 0 <= i < |lines| ==> CleanKey(lines[i])
    ensures CleanLines(lines) == lines
  {
    if lines != [] {
      assert CleanKey(lines[0]);
      CleanLinesKeepsClean(lines[1..]);
      assert CleanLines(lines) == [lines[0]] + CleanLines(lines[1..]);
      assert lines == [lines[0]] + lines[1..];
    }
  }

  /** Keys written one per line are read back as the same list, in the same order. */
  lemma LinesRoundTrip(keys: seq<string>, parse: string -> JsonReading)
    requires |keys| >= 1
    requires forall i :: 0 <= i < |keys| ==> CleanKey(keys[i]) && '\n' !in keys[i]
    requires parse(Join(keys, '\n')) == NotJson
    ensures GetFileContent(Fetched(Join(keys, '\n')), parse) == keys
  {
    var text := Join(keys, '\n');
    JoinEdges(keys, '\n');
    StripKeepsTrimmed(text);
    SplitJoin(keys, '\n');
    CleanLinesKeepsClean(keys);
  }

  /** A join of non-empty parts starts with the first part's first character and ends with the last part's last one. */
  lemma {:induction false} JoinEdges(parts: seq<string>, sep: char)
    requires |parts| >= 1
    requires forall i :: 0 <= i < |parts| ==> parts[i] != []
    ensures Join(parts, sep) != []
    ensures Join(parts, sep)[0] == parts[0][0]
    ensures Join(parts, sep)[|Join(parts, sep)| - 1] == parts[|parts| - 1][|parts[|parts| - 1]| - 1]
  {
    if |parts| > 1 {
      JoinEdges(parts[1..], sep);
    }
  }

  // ---------------------------------------------------------------------------
  // Writing a stock file
  // ---------------------------------------------------------------------------

  function DefaultMessage(count: nat): string {
    "Update stock: " + NatToString(count) + " keys available"
  }

  /** `update_file_content`: read the current sha, then PUT the keys. Only a 200 supplies a sha; a failed GET sends nothing. */
  method UpdateFileContent(prior: PriorRead, keys: seq<string>, message: Option<string>, putSucceeds: bool)
    returns (ok: bool, sent: Option<Commit>)
    ensures prior.ReadFailed? ==> !ok && sent == None
    ensures !prior.ReadFailed? ==> sent.Some? && ok == putSucceeds
    ensures sent.Some? ==> sent.value.keys == keys
    ensures sent.Some? ==> sent.value.message == if Truthy(message) then message.value else DefaultMessage(|keys|)
    ensures sent.Some? ==> (sent.value.sha.Some? <==> prior.Found? && prior.sha != "")
    ensures sent.Some? && sent.value.sha.Some? ==> prior == Found(sent.value.sha.value)
  {
    var sha: Option<string> := None;
    match prior {
      case Found(s) => sha := Some(s);
      case Absent =>
      case OtherStatus(_) =>
      case ReadFailed => return false, None;
    }
    var msg := if Truthy(message) then message.value else DefaultMessage(|keys|);
    var commit := Commit(msg, keys, None);
    if Truthy(sha) {
      commit := commit.(sha := sha);
    }
    return putSucceeds, Some(commit);
  }

  /** `add_keys_to_stock`: the union of the current and the new keys, each once. */
  method AddKeysToStock(fetch: FileFetch, parse: string -> JsonReading, newKeys: seq<string>,
                        prior: PriorRead, putSucceeds: bool)
    returns (ok: bool, sent: Option<Commit>)
    ensures ok == (!prior.ReadFailed? && putSucceeds)
    ensures sent.Some? <==> !prior.ReadFailed?
    ensures sent.Some? ==>
              var current := GetFileContent(fetch, parse);
              && NoDuplicates(sent.value.keys)
              && (forall k :: k in sent.value.keys <==> k in current || k in newKeys)
              && |sent.value.keys| == |set k | k in current + newKeys|
              && sent.value.message == "Add " + NatToString(|newKeys|) + " new keys (total: "
                                        + NatToString(|sent.value.keys|) + ")"
  {
    var current := GetFileContent(fetch, parse);
    var updated := Dedup(current + newKeys);
    DedupMembers(current + newKeys);
    DistinctCount(updated);
    assert (set k | k in updated) == (set k | k in current + newKeys);
    var message := "Add " + NatToString(|newKeys|) + " new keys (total: " + NatToString(|updated|) + ")";
    ok, sent := UpdateFileContent(prior, updated, Some(message), putSucceeds);
  }

  /** A list without duplicates has as many elements as its set. */
  lemma {:induction false} DistinctCount<T>(s: seq<T>)
    requires NoDuplicates(s)
    ensures |set x | x in s| == |s|
  {
    if s != [] {
      DistinctCount(s[1..]);
      assert (set x | x in s) == {s[0]} + (set x | x in s[1..]);
      assert s[0] !in s[1..];
    }
  }

  /** `remove_key_from_stock`: an absent key sends nothing; otherwise every copy goes and the rest keep their order. */
  method RemoveKeyFromStock(fetch: FileFetch, parse: string -> JsonReading, key: string,
                            prior: PriorRead, putSucceeds: bool)
    returns (ok: bool, sent: Option<Commit>)
    ensures key !in GetFileContent(fetch, parse) ==> !ok && sent == None
    ensures key in GetFileContent(fetch, parse) ==> ok == (!prior.ReadFailed? && putSucceeds)
    ensures key in GetFileContent(fetch, parse) ==> (sent.Some? <==> !prior.ReadFailed?)
    ensures sent.Some? ==>
              var current := GetFileContent(fetch, parse);
              && key in current
              && key !in sent.value.keys
              && (forall k :: k != key ==> multiset(sent.value.keys)[k] == multiset(current)[k])
              && sent.value.keys == Filter(current, (k: string) => k != key)
              && sent.value.message == "Sold key: " + key + " (remaining: " + NatToString(|sent.value.keys|) + ")"
  {
    var current := GetFileContent(fetch, parse);
    if key !in current {
      return false, None;
    }
    var keep := (k: string) => k != key;
    var updated := Filter(current, keep);
    FilterMembers(current, keep);
    forall k | k != key
      ensures multiset(updated)[k] == multiset(current)[k]
    {
      FilterCounts(current, keep, k);
    }
    var message := "Sold key: " + key + " (remaining: " + NatToString(|updated|) + ")";
    ok, sent := UpdateFileContent(prior, updated, Some(message), putSucceeds);
  }

  /** `get_stock_count` */
  function GetStockCount(fetch: FileFetch, parse: string -> JsonReading): (n: nat)
    ensures n == |GetFileContent(fetch, parse)|
    ensures !fetch.Fetched? ==> n == 0
  {
    |GetFileContent(fetch, parse)|
  }

  /** The line recorded for a sale: `"<key> - <buyer>"`, or the key alone without buyer information. */
  function BoughtEntry(key: string, buyer: Option<string>): (entry: string)
    ensures |entry| >= |key| && entry[..|key|] == key
    ensures Truthy(buyer) <==> |entry| > |key|
    ensures Truthy(buyer) ==> entry[|key|..] == " - " + buyer.value
  {
    if Truthy(buyer) then key + " - " + buyer.value else key
  }

  /** `add_bought_key`: the current list with one entry appended, committed as `Key sold: <key>`. */
  method AddBoughtKey(fetch: FileFetch, parse: string -> JsonReading, key: string, buyer: Option<string>,
                      prior: PriorRead, putSucceeds: bool)
    returns (ok: bool, sent: Option<Commit>)
    ensures ok == (!prior.ReadFailed? && putSucceeds)
    ensures sent.Some? <==> !prior.ReadFailed?
    ensures sent.Some? ==>
              var current := GetFileContent(fetch, parse);
              && |sent.value.keys| == |current| + 1
              && sent.value.keys[..|current|] == current
              && sent.value.keys[|current|] == BoughtEntry(key, buyer)
              && sent.value.message == "Key sold: " + key
  {
    var bought := GetFileContent(fetch, parse);
    var entry := BoughtEntry(key, buyer);
    bought := bought + [entry];
    ok, sent := UpdateFileContent(prior, bought, Some("Key sold: " + key), putSucceeds);
  }
}
