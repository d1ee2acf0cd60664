/** `validate_stock_files.py`: the list of stock files a product configuration
    names, and the exit status of the check that each of them exists.

    Reading `config/products.json` and the environment becomes input values;
    the existence probe of one path (an HTTP GET on the contents API) is a
    function parameter. */
module StockValidator {
  import opened Wrappers
  import opened Seqs

  const StockDir := "Stock/"

  /** `resolve_stock_path`: a bare file name is placed under `Stock/`; a path with a directory is kept. */
  function ResolveStockPath(entry: string): (path: string)
    ensures path == [] <==> entry == []
    ensures path != [] ==> '/' in path
    ensures |path| >= |entry| && path[|path| - |entry|..] == entry
    ensures '/' in entry ==> path == entry
  {
    if entry == [] then []
    else if '/' in entry then entry
    else StockDir + entry
  }

  /** Resolving twice is resolving once. */
  lemma ResolveStockPathIdempotent(entry: string)
    ensures ResolveStockPath(ResolveStockPath(entry)) == ResolveStockPath(entry)
  {
  }

  /** The parts of the configuration the validator reads: each product's `stockGithubFile` and `github.bought_file`. */
  datatype Config = Config(stockFiles: seq<Option<string>>, boughtFile: Option<string>)

  /** The resolved stock paths of the products that name one, in product order. */
  function StockPaths(entries: seq<Option<string>>): (paths: seq<string>)
    ensures |paths| <= |entries|
  {
    if entries == [] then []
    else
      var last := entries[|entries| - 1];
      StockPaths(entries[..|entries| - 1]) + if Truthy(last) then [ResolveStockPath(last.value)] else []
  }

  /** Every collected path is non-empty and names a directory. */
  lemma {:induction false} StockPathsResolved(entries: seq<Option<string>>)
    ensures forall i :: 0 <= i < |StockPaths(entries)| ==> StockPaths(entries)[i] != [] && '/' in StockPaths(entries)[i]
  {
    if entries != [] {
      StockPathsResolved(entries[..|entries| - 1]);
    }
  }

  /** Products without a stock file contribute nothing. */
  lemma {:induction false} StockPathsNone(entries: seq<Option<string>>)
    requires forall i :: 0 <= i < |entries| ==> !Truthy(entries[i])
    ensures StockPaths(entries) == []
  {
    if entries != [] {
      StockPathsNone(entries[..|entries| - 1]);
    }
  }

  /** Every configured stock file appears, resolved. */
  lemma {:induction false} StockPathsComplete(entries: seq<Option<string>>, i: nat)
    requires i < |entries| && Truthy(entries[i])
    ensures ResolveStockPath(entries[i].value) in StockPaths(entries)
  {
    if i < |entries| - 1 {
      StockPathsComplete(entries[..|entries| - 1], i);
    }
  }

  /** The bought-keys file: the configured one, else the environment's. */
  function BoughtFile(config: Config, envBought: Option<string>): Option<string> {
    OrElse(config.boughtFile, envBought)
  }

  /** The list `main` builds before de-duplication: stock paths, then the bought file, unresolved. */
  function ConfiguredFiles(config: Config, envBought: Option<string>): (files: seq<string>)
    ensures var bought := BoughtFile(config, envBought);
            Truthy(bought) ==> files != [] && files[|files| - 1] == bought.value
    ensures |files| >= |StockPaths(config.stockFiles)|
    ensures files[..|StockPaths(config.stockFiles)|] == StockPaths(config.stockFiles)
  {
    var bought := BoughtFile(config, envBought);
    StockPaths(config.stockFiles) + if Truthy(bought) then [bought.value] else []
  }

  /** The loop of `main` that builds the file list, followed by `list(dict.fromkeys(files))`. */
  method CollectFiles(config: Config, envBought: Option<string>) returns (files: seq<string>)
    ensures files == Dedup(ConfiguredFiles(config, envBought))
  {
    files := [];
    var i := 0;
    while i < |config.stockFiles|
      invariant 0 <= i <= |config.stockFiles|
      invariant files == StockPaths(config.stockFiles[..i])
    {
      assert config.stockFiles[..i + 1][..i] == config.stockFiles[..i];
      var sf := config.stockFiles[i];
      if Truthy(sf) {
        files := files + [ResolveStockPath(sf.value)];
      }
      assert files == StockPaths(config.stockFiles[..i + 1]);
      i := i + 1;
    }
    assert config.stockFiles[..i] == config.stockFiles;
    assert files == StockPaths(config.stockFiles);
    var bought := OrElse(config.boughtFile, envBought);
    if Truthy(bought) {
      files := files + [bought.value];
    }
    assert files == ConfiguredFiles(config, envBought);
    files := Dedup(files);
  }

  /** The validated list holds every configured path once, ordered by first occurrence. */
  lemma CollectedFilesShape(config: Config, envBought: Option<string>)
    ensures var files := Dedup(ConfiguredFiles(config, envBought));
            && NoDuplicates(files)
            && (forall f :: f in files <==> f in ConfiguredFiles(config, envBought))
            && (forall i, j :: 0 <= i < j < |files| ==>
                  FirstIndex(ConfiguredFiles(config, envBought), files[i]) < FirstIndex(ConfiguredFiles(config, envBought), files[j]))
  {
    DedupFirstOccurrenceOrder(ConfiguredFiles(config, envBought));
  }

  /** The answer to one existence probe: an HTTP status, or an exception. */
  datatype Probe = Http(status: int) | Raised

  /** `check_file_exists`: only a 200 counts as present. */
  predicate FileExists(probe: Probe) {
    probe == Http(200)
  }

  /** The checking loop of `main`: 0 when every file exists, 1 otherwise. */
  method CheckAll(files: seq<string>, probe: string -> Probe) returns (code: int)
    ensures code == 0 || code == 1
    ensures code == 0 <==> forall i :: 0 <= i < |files| ==> FileExists(probe(files[i]))
  {
    var allOk := true;
    var i := 0;
    while i < |files|
      invariant 0 <= i <= |files|
      invariant allOk <==> forall k :: 0 <= k < i ==> FileExists(probe(files[k]))
    {
      var ok := FileExists(probe(files[i]));
      if !ok {
        allOk := false;
      }
      i := i + 1;
    }
    code := if allOk then 0 else 1;
  }

  /** `main`: missing repository settings or an unreadable configuration exit 1; no files exits 0. */
  method ValidateStockFiles(owner: Option<string>, repo: Option<string>, config: Option<Config>,
                            envBought: Option<string>, probe: string -> Probe)
    returns (code: int)
    ensures code == 0 || code == 1
    ensures !Truthy(owner) || !Truthy(repo) || config.None? ==> code == 1
    ensures Truthy(owner) && Truthy(repo) && config.Some? ==>
              var files := Dedup(ConfiguredFiles(config.value, envBought));
              (code == 0 <==> forall i :: 0 <= i < |files| ==> FileExists(probe(files[i])))
    ensures Truthy(owner) && Truthy(repo) && config.Some? && ConfiguredFiles(config.value, envBought) == [] ==> code == 0
  {
    if !Truthy(owner) || !Truthy(repo) {
      return 1;
    }
    if config.None? {
      return 1;
    }
    var files := CollectFiles(config.value, envBought);
    if files == [] {
      return 0;
    }
    code := CheckAll(files, probe);
  }
}
