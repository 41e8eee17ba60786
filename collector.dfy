/**
 * The Ethereum collector (app/collectors/eth_collector.py): it reads its
 * settings from the environment, picks the first JSON-RPC endpoint that
 * reports a head block, walks back over the most recent blocks, falls over to
 * the other endpoints when a block cannot be fetched, and turns the block's
 * transactions into records until `max_tx` of them have been collected.
 *
 * The JSON-RPC transport is abstracted: `headOf(url)` is the answer of
 * `eth_blockNumber` at `url` (`None` when the call raises), `fetch(url, b)` the
 * answer of `eth_getBlockByNumber` for block `b`. Values are kept in wei.
 */
module EthCollector {
  import opened Wrappers
  import opened Text

  // ---------------------------------------------------------------------------
  // Settings
  // ---------------------------------------------------------------------------

  /** `_get_urls`: the value of `ETH_RPC_URL` without spaces, split on commas, empty pieces dropped. */
  function GetUrls(raw: Option<string>): (urls: seq<string>)
    ensures forall u :: u in urls ==> u != "" && ',' !in u && ' ' !in u
  {
    var s := Without(raw.GetOr(""), ' ');
    SplitAvoids(s, ',', ' ');
    NonEmpty(Split(s, ','))
  }

  /** A character absent from the text is absent from every piece of its split. */
  lemma {:induction false} SplitAvoids(s: string, sep: char, c: char)
    requires c !in s
    ensures forall p :: p in Split(s, sep) ==> c !in p
  {
    if s != [] {
      assert c !in s[1..] by {
        assert forall i :: 0 <= i < |s| - 1 ==> s[1..][i] == s[i + 1];
      }
      SplitAvoids(s[1..], sep, c);
      var rest := Split(s[1..], sep);
      if s[0] != sep {
        assert rest[0] in rest;
        assert forall p :: p in rest[1..] ==> p in rest;
      }
    }
  }

  /** An unset variable gives no endpoint at all. */
  lemma GetUrlsUnset()
    ensures GetUrls(None) == []
  {
    assert Split("", ',') == [""];
  }

  /** A comma-separated list of clean endpoints reads back as that very list. */
  lemma GetUrlsJoin(urls: seq<string>)
    requires |urls| >= 1
    requires forall u :: u in urls ==> u != "" && ',' !in u && ' ' !in u
    ensures GetUrls(Some(Join(urls, ','))) == urls
  {
    JoinSpaceFree(urls, ',');
    SplitJoin(urls, ',');
    NonEmptyKeepsAll(urls);
  }

  /** Joining pieces without spaces with a separator other than a space gives text without spaces. */
  lemma {:induction false} JoinSpaceFree(parts: seq<string>, sep: char)
    requires sep != ' '
    requires forall p :: p in parts ==> ' ' !in p
    ensures ' ' !in Join(parts, sep)
  {
    if |parts| > 1 {
      assert parts[0] in parts;
      assert forall p :: p in parts[1..] ==> p in parts;
      JoinSpaceFree(parts[1..], sep);
    } else if |parts| == 1 {
      assert parts[0] in parts;
    }
  }

  /** The words `_env_bool` reads as true. */
  const TrueWords: set<string> := {"1", "true", "yes", "y", "on"}

  /** `_env_bool`: the default when the variable is unset, otherwise whether its stripped, lower-cased value is a true word. */
  function EnvBool(v: Option<string>, default: bool): bool {
    match v
    case None => default
    case Some(s) => Lower(Strip(s)) in TrueWords
  }

  /** A set variable decides on its own: a true word gives true and anything else, the empty value included, false. */
  lemma EnvBoolSet(s: string, default: bool)
    ensures EnvBool(Some(s), default) == EnvBool(Some(s), !default)
    ensures s in TrueWords ==> EnvBool(Some(s), default)
    ensures EnvBool(Some(""), default) == false
  {
    if s in TrueWords {
      TrueWordRead(s);
    }
    assert Strip("") == "";
  }

  lemma TrueWordRead(w: string)
    requires w in TrueWords
    ensures Lower(Strip(w)) == w
  {
    if w == "1" {
      UnspacedWord("1");
    } else if w == "true" {
      UnspacedWord("true");
    } else if w == "yes" {
      UnspacedWord("yes");
    } else if w == "y" {
      UnspacedWord("y");
    } else {
      UnspacedWord("on");
    }
  }

  /** A word of lower-case letters and digits is left alone by `strip` and `lower`. */
  lemma UnspacedWord(w: string)
    requires w != [] && forall i :: 0 <= i < |w| ==> 'a' <= w[i] <= 'z' || '0' <= w[i] <= '9'
    ensures Lower(Strip(w)) == w
  {
    StripUnspaced(w);
    assert Lower(w) == w;
  }

  /** The reading ignores letter case. */
  lemma EnvBoolIgnoresCase(s: string, default: bool)
    ensures EnvBool(Some(Upper(s)), default) == EnvBool(Some(s), default)
  {
    StripUpper(s);
    LowerOfUpper(Strip(s));
  }

  /** `int(os.getenv(name, default))`: the default when unset, `None` where `int` raises. */
  function IntSetting(v: Option<string>, default: int): Option<int> {
    match v
    case None => Some(default)
    case Some(s) => ParseInt(s)
  }

  /** A setting holding the decimal text of `n` reads as `n`; an empty one is rejected. */
  lemma IntSettingRoundTrip(n: int, default: int)
    ensures IntSetting(Some(ShowInt(n)), default) == Some(n)
    ensures IntSetting(Some(""), default) == None
  {
    ParseShowInt(n);
  }

  /** The environment the collector reads; the minimum value is given already converted to wei. */
  datatype Env = Env(
    rpcUrl: Option<string>,
    blocksBack: Option<string>,
    maxTx: Option<string>,
    onlyErc20: Option<string>,
    minWei: int,
    chainName: Option<string>)

  /** The settings `load_from_eth` works with. */
  datatype Settings = Settings(blocksBack: int, maxTx: int, onlyErc20: bool, minWei: int, chain: string)

  // ---------------------------------------------------------------------------
  // Blocks, transactions and records
  // ---------------------------------------------------------------------------

  /**
   * A transaction of a fetched block. `toAddr` is `None` for a contract
   * creation; `value` is `None` when the value field does not parse as hex;
   * a missing value is 0 and a missing input `"0x"`.
   */
  datatype RawTx = RawTx(hash: string, fromAddr: string, toAddr: Option<string>, value: Option<int>, input: string)

  /** A fetched block: its timestamp in seconds (`None` when it does not parse as hex; a missing one is 0) and its transactions. */
  datatype Block = Block(timestamp: Option<int>, transactions: seq<RawTx>)

  /** The answer of `eth_getBlockByNumber`: the call raised, returned null, or returned a block. */
  datatype Reply = Failed | Null | Got(block: Block)

  /** One collected transaction. */
  datatype Record = Record(
    txId: string,
    timestamp: int,
    fromAddress: string,
    toAddress: string,
    amountWei: int,
    token: string,
    methodName: string,
    chain: string)

  /** Why a load ends without records. */
  datatype LoadError =
    | NoUrls                        // `ETH_RPC_URL` gives no endpoint
    | BadSetting(name: string)      // an integer setting does not parse
    | NoHead                        // no endpoint answers `eth_blockNumber`
    | NullBlock(block: int)         // the current endpoint answers null for a block
    | BadTimestamp(block: int)      // a fetched block's timestamp does not parse

  /** `_wei_to_eth` in wei: the parsed value, 0 when it does not parse. */
  function ValueOf(t: RawTx): int {
    t.value.GetOr(0)
  }

  /** A transaction is collected when its value reaches the minimum and ERC-20-only mode is off. */
  predicate Keeps(opts: Settings, t: RawTx) {
    !(ValueOf(t) < opts.minWei) && !opts.onlyErc20
  }

  /** The record a collected transaction becomes. */
  function ToRecord(opts: Settings, ts: int, t: RawTx): Record {
    Record(
      t.hash, ts, t.fromAddr, t.toAddr.GetOr(""), ValueOf(t), "ETH",
      if t.input == "0x" then "TRANSFER" else "CALL",
      opts.chain)
  }

  /** The records a run of transactions would give with no cap, in order. */
  function Admitted(opts: Settings, ts: int, txs: seq<RawTx>): seq<Record> {
    if txs == [] then []
    else
      var t := txs[|txs| - 1];
      Admitted(opts, ts, txs[..|txs| - 1]) + (if Keeps(opts, t) then [ToRecord(opts, ts, t)] else [])
  }

  /** How many more records fit under the cap. */
  function Room(maxTx: int, have: nat): nat {
    if maxTx > have then maxTx - have else 0
  }

  /** The first `n` elements of `s`, or all of them. */
  function Take<T>(s: seq<T>, n: nat): (r: seq<T>)
    ensures |r| <= n && |r| <= |s| && r == s[..|r|]
    ensures |r| == n || r == s
  {
    if n < |s| then s[..n] else s
  }

  /** The records after one block: the old ones, then the block's admitted ones while there is room. */
  function Harvest(opts: Settings, ts: int, txs: seq<RawTx>, out: seq<Record>): seq<Record> {
    out + Take(Admitted(opts, ts, txs), Room(opts.maxTx, |out|))
  }

  /** A well-formed record: the block's timestamp, an ETH value at or above the minimum, a known method. */
  predicate WellFormed(opts: Settings, r: Record) {
    r.token == "ETH" && r.chain == opts.chain && r.amountWei >= opts.minWei
    && (r.methodName == "TRANSFER" || r.methodName == "CALL")
  }

  /**
   * The admitted records are exactly the kept transactions, each turned into its
   * record, in order: the record's method is `TRANSFER` exactly for the input
   * `"0x"`, and a missing recipient becomes `""`.
   */
  lemma {:induction false} AdmittedMeaning(opts: Settings, ts: int, txs: seq<RawTx>)
    ensures forall r :: r in Admitted(opts, ts, txs) ==>
              exists i :: 0 <= i < |txs| && Keeps(opts, txs[i]) && r == ToRecord(opts, ts, txs[i])
    ensures forall i :: 0 <= i < |txs| && Keeps(opts, txs[i]) ==> ToRecord(opts, ts, txs[i]) in Admitted(opts, ts, txs)
    ensures forall r :: r in Admitted(opts, ts, txs) ==> WellFormed(opts, r) && r.timestamp == ts
    ensures opts.onlyErc20 ==> Admitted(opts, ts, txs) == []
  {
    if txs != [] {
      var init := txs[..|txs| - 1];
      AdmittedMeaning(opts, ts, init);
      assert forall i :: 0 <= i < |init| ==> init[i] == txs[i];
    }
  }

  /** The method of a record tells a plain transfer (`input == "0x"`) from a contract call. */
  lemma RecordMethod(opts: Settings, ts: int, t: RawTx)
    ensures ToRecord(opts, ts, t).methodName == "TRANSFER" <==> t.input == "0x"
    ensures ToRecord(opts, ts, t).toAddress == "" <==> t.toAddr.None? || t.toAddr == Some("")
  {
  }

  /** Admitting two runs of transactions one after the other keeps their order. */
  lemma {:induction false} AdmittedAppend(opts: Settings, ts: int, a: seq<RawTx>, b: seq<RawTx>)
    ensures Admitted(opts, ts, a + b) == Admitted(opts, ts, a) + Admitted(opts, ts, b)
  {
    if b != [] {
      assert (a + b)[..|a + b| - 1] == a + b[..|b| - 1];
      assert (a + b)[|a + b| - 1] == b[|b| - 1];
      AdmittedAppend(opts, ts, a, b[..|b| - 1]);
    } else {
      assert a + b == a;
    }
  }

  /** A block never takes the records past the cap, keeps the old ones in front, and adds only well-formed ones. */
  lemma HarvestMeaning(opts: Settings, ts: int, txs: seq<RawTx>, out: seq<Record>)
    ensures |Harvest(opts, ts, txs, out)| <= if |out| > opts.maxTx then |out| else opts.maxTx
    ensures Harvest(opts, ts, txs, out)[..|out|] == out
    ensures forall r :: r in Harvest(opts, ts, txs, out)[|out|..] ==> WellFormed(opts, r) && r.timestamp == ts
    ensures |out| >= opts.maxTx ==> Harvest(opts, ts, txs, out) == out
  {
    AdmittedMeaning(opts, ts, txs);
    var h := Harvest(opts, ts, txs, out);
    var taken := Take(Admitted(opts, ts, txs), Room(opts.maxTx, |out|));
    assert h[|out|..] == taken;
    forall r | r in taken ensures r in Admitted(opts, ts, txs) {
      var i :| 0 <= i < |taken| && taken[i] == r;
    }
  }

  /**
   * The transaction loop of `load_from_eth` for one block: stops once
   * `max_tx` records are held, skips what is filtered out, appends the rest.
   */
  method HarvestBlock(opts: Settings, ts: int, txs: seq<RawTx>, out0: seq<Record>) returns (out: seq<Record>)
    ensures out == Harvest(opts, ts, txs, out0)
  {
    ghost var room := Room(opts.maxTx, |out0|);
    out := out0;
    for i := 0 to |txs|
      invariant out == out0 + Take(Admitted(opts, ts, txs[..i]), room)
    {
      if |out| >= opts.maxTx {
        HarvestFull(opts, ts, txs, i, out0);
        return;
      }
      var t := txs[i];
      HarvestStep(opts, ts, txs, i, out0);
      if ValueOf(t) < opts.minWei {
        continue;
      }
      if opts.onlyErc20 {
        continue;
      }
      out := out + [ToRecord(opts, ts, t)];
    }
    assert txs[..|txs|] == txs;
  }

  /** Below the cap, the next transaction is admitted in full or not at all. */
  lemma HarvestStep(opts: Settings, ts: int, txs: seq<RawTx>, i: nat, out0: seq<Record>)
    requires i < |txs|
    requires |out0| + |Take(Admitted(opts, ts, txs[..i]), Room(opts.maxTx, |out0|))| < opts.maxTx
    ensures Take(Admitted(opts, ts, txs[..i + 1]), Room(opts.maxTx, |out0|))
            == Take(Admitted(opts, ts, txs[..i]), Room(opts.maxTx, |out0|))
               + (if Keeps(opts, txs[i]) then [ToRecord(opts, ts, txs[i])] else [])
  {
    assert txs[..i + 1][..i] == txs[..i];
  }

  /** At the cap, the rest of the block adds nothing. */
  lemma HarvestFull(opts: Settings, ts: int, txs: seq<RawTx>, i: nat, out0: seq<Record>)
    requires i <= |txs|
    requires |out0| + |Take(Admitted(opts, ts, txs[..i]), Room(opts.maxTx, |out0|))| >= opts.maxTx
    ensures Take(Admitted(opts, ts, txs[..i]), Room(opts.maxTx, |out0|))
            == Take(Admitted(opts, ts, txs), Room(opts.maxTx, |out0|))
  {
    AdmittedAppend(opts, ts, txs[..i], txs[i..]);
    assert txs[..i] + txs[i..] == txs;
  }

  // ---------------------------------------------------------------------------
  // Endpoint selection and failover
  // ---------------------------------------------------------------------------

  /** The first endpoint from position `k` on that reports a head block. */
  function FirstAnswering(urls: seq<string>, headOf: string -> Option<int>, k: nat): (r: Option<nat>)
    requires k <= |urls|
    decreases |urls| - k
    ensures r.Some? ==> k <= r.value < |urls| && headOf(urls[r.value]).Some?
                        && forall j :: k <= j < r.value ==> headOf(urls[j]).None?
    ensures r.None? ==> forall j :: k <= j < |urls| ==> headOf(urls[j]).None?
  {
    if k == |urls| then None
    else if headOf(urls[k]).Some? then Some(k)
    else FirstAnswering(urls, headOf, k + 1)
  }

  /** The first endpoint from position `k` on, other than `used`, whose call for block `b` does not fail. */
  function FirstFallback(urls: seq<string>, used: string, fetch: (string, int) -> Reply, b: int, k: nat): (r: Option<nat>)
    requires k <= |urls|
    decreases |urls| - k
    ensures r.Some? ==> k <= r.value < |urls| && urls[r.value] != used && !fetch(urls[r.value], b).Failed?
                        && forall j :: k <= j < r.value ==> urls[j] == used || fetch(urls[j], b).Failed?
    ensures r.None? ==> forall j :: k <= j < |urls| ==> urls[j] == used || fetch(urls[j], b).Failed?
  {
    if k == |urls| then None
    else if urls[k] != used && !fetch(urls[k], b).Failed? then Some(k)
    else FirstFallback(urls, used, fetch, b, k + 1)
  }

  /** How fetching one block ends: a block and the endpoint now in use, a skip, or a crash. */
  datatype BlockFetch = Fetched(block: Block, via: string) | Skipped(via: string) | Crashed

  /**
   * The fetch of one block in the block loop: the current endpoint first;
   * if its call fails, the other endpoints in list order. A null answer from the current endpoint makes the
   * later `blk.get` raise; a null answer from another endpoint switches to it
   * and skips the block.
   */
  function FetchBlock(urls: seq<string>, used: string, fetch: (string, int) -> Reply, b: int): BlockFetch {
    match fetch(used, b)
    case Got(blk) => Fetched(blk, used)
    case Null => Crashed
    case Failed =>
      match FirstFallback(urls, used, fetch, b, 0)
      case None => Skipped(used)
      case Some(i) => if fetch(urls[i], b).Got? then Fetched(fetch(urls[i], b).block, urls[i]) else Skipped(urls[i])
  }

  /**
   * A block comes from the endpoint in use when its call succeeds, and
   * otherwise from the first other endpoint whose call does not fail, which
   * then stays in use; when every call fails the block is skipped and the
   * endpoint is kept.
   */
  lemma FailoverMeaning(urls: seq<string>, used: string, fetch: (string, int) -> Reply, b: int)
    ensures FetchBlock(urls, used, fetch, b).Fetched? ==>
              fetch(FetchBlock(urls, used, fetch, b).via, b) == Got(FetchBlock(urls, used, fetch, b).block)
    ensures FetchBlock(urls, used, fetch, b).Crashed? <==> fetch(used, b).Null?
    ensures !FetchBlock(urls, used, fetch, b).Crashed? && FetchBlock(urls, used, fetch, b).via != used ==>
              fetch(used, b).Failed? && FetchBlock(urls, used, fetch, b).via in urls
              && exists i :: 0 <= i < |urls| && urls[i] == FetchBlock(urls, used, fetch, b).via
                             && !fetch(urls[i], b).Failed?
                             && forall j :: 0 <= j < i ==> urls[j] == used || fetch(urls[j], b).Failed?
    ensures (fetch(used, b).Failed? && forall u :: u in urls ==> u == used || fetch(u, b).Failed?) ==>
              FetchBlock(urls, used, fetch, b) == Skipped(used)
  {
    var r := FirstFallback(urls, used, fetch, b, 0);
    if fetch(used, b).Failed? && r.Some? {
      var i := r.value;
      assert urls[i] in urls;
    }
  }

  /**
   * Conversely, when the endpoint in use fails and `urls[i]` is the first
   * other endpoint that does not, the fetch switches to `urls[i]`: it takes the
   * block from it when it has one and skips the block when it answers null.
   */
  lemma FailoverSwitches(urls: seq<string>, used: string, fetch: (string, int) -> Reply, b: int, i: nat)
    requires i < |urls| && urls[i] != used && !fetch(urls[i], b).Failed?
    requires forall j :: 0 <= j < i ==> urls[j] == used || fetch(urls[j], b).Failed?
    requires fetch(used, b).Failed?
    ensures !FetchBlock(urls, used, fetch, b).Crashed? && FetchBlock(urls, used, fetch, b).via == urls[i]
    ensures FetchBlock(urls, used, fetch, b).Fetched? <==> fetch(urls[i], b).Got?
    ensures fetch(urls[i], b).Got? ==> FetchBlock(urls, used, fetch, b).block == fetch(urls[i], b).block
  {
    assert FirstFallback(urls, used, fetch, b, 0) == Some(i);
  }

  /** The fetch with failover of the block loop: the endpoint in use, then the others in list order. */
  method FetchWithFailover(urls: seq<string>, used: string, fetch: (string, int) -> Reply, b: int) returns (got: BlockFetch)
    ensures got == FetchBlock(urls, used, fetch, b)
  {
    var reply := fetch(used, b);
    if reply.Got? {
      return Fetched(reply.block, used);
    }
    if reply.Null? {
      return Crashed;
    }
    for i := 0 to |urls|
      invariant FirstFallback(urls, used, fetch, b, 0) == FirstFallback(urls, used, fetch, b, i)
    {
      var alt := urls[i];
      if alt == used {
        continue;
      }
      var rep := fetch(alt, b);
      if rep.Failed? {
        continue;
      }
      if rep.Got? {
        return Fetched(rep.block, alt);
      }
      return Skipped(alt);
    }
    return Skipped(used);
  }

  // ---------------------------------------------------------------------------
  // The scan
  // ---------------------------------------------------------------------------

  /** How a scan ends: its result and the blocks it asked for, in order. */
  datatype Outcome = Outcome(result: Result<seq<Record>, LoadError>, visited: seq<int>)

  /** The scan from block `b` down to block `low`, with endpoint `used` in use and `out` collected so far. */
  function Scan(opts: Settings, urls: seq<string>, fetch: (string, int) -> Reply, used: string, b: int, low: int, out: seq<Record>): Outcome
    decreases if b < low then 0 else b - low + 1
  {
    if b < low || |out| >= opts.maxTx then Outcome(Ok(out), [])
    else
      match FetchBlock(urls, used, fetch, b)
      case Crashed => Outcome(Err(NullBlock(b)), [b])
      case Skipped(u) =>
        var rest := Scan(opts, urls, fetch, u, b - 1, low, out);
        Outcome(rest.result, [b] + rest.visited)
      case Fetched(blk, u) =>
        if blk.timestamp.None? then Outcome(Err(BadTimestamp(b)), [b])
        else
          var rest := Scan(opts, urls, fetch, u, b - 1, low, Harvest(opts, blk.timestamp.value, blk.transactions, out));
          Outcome(rest.result, [b] + rest.visited)
  }

  /** The first block asked for and the lowest one allowed. */
  function ScanStart(head: int, blocksBack: int): int {
    if head - blocksBack + 1 > 0 then head - blocksBack + 1 else 0
  }

  /** The settings, or the first integer setting that does not parse. */
  function SettingsOf(env: Env): Result<Settings, LoadError> {
    match IntSetting(env.blocksBack, 20)
    case None => Err(BadSetting("ETH_BLOCKS_BACK"))
    case Some(blocksBack) =>
      match IntSetting(env.maxTx, 50)
      case None => Err(BadSetting("ETH_MAX_TX"))
      case Some(maxTx) =>
        Ok(Settings(blocksBack, maxTx, EnvBool(env.onlyErc20, false), env.minWei, env.chainName.GetOr("ETH")))
  }

  /** What `load_from_eth` does with the given environment and endpoints. */
  function Load(env: Env, headOf: string -> Option<int>, fetch: (string, int) -> Reply): Outcome {
    var urls := GetUrls(env.rpcUrl);
    if urls == [] then Outcome(Err(NoUrls), [])
    else
      match SettingsOf(env)
      case Err(e) => Outcome(Err(e), [])
      case Ok(opts) =>
        match FirstAnswering(urls, headOf, 0)
        case None => Outcome(Err(NoHead), [])
        case Some(i) =>
          var head := headOf(urls[i]).value;
          Scan(opts, urls, fetch, urls[i], head, ScanStart(head, opts.blocksBack), [])
  }

  /**
   * A scan asks for blocks `b, b - 1, ...` in strictly descending order, none
   * below `low`; it never takes the records past the cap; it keeps what it had
   * and adds only well-formed records; with ERC-20-only mode on it adds none.
   */
  lemma {:induction false} ScanMeaning(opts: Settings, urls: seq<string>, fetch: (string, int) -> Reply, used: string, b: int, low: int, out: seq<Record>)
    ensures var v := Scan(opts, urls, fetch, used, b, low, out).visited;
            forall i :: 0 <= i < |v| ==> v[i] == b - i && v[i] >= low
    ensures var res := Scan(opts, urls, fetch, used, b, low, out).result;
            res.Ok? ==> |res.value| <= (if |out| > opts.maxTx then |out| else opts.maxTx)
                        && |out| <= |res.value| && res.value[..|out|] == out
                        && (forall r :: r in res.value[|out|..] ==> WellFormed(opts, r))
                        && (opts.onlyErc20 ==> res.value == out)
    decreases if b < low then 0 else b - low + 1
  {
    if !(b < low || |out| >= opts.maxTx) {
      match FetchBlock(urls, used, fetch, b)
      case Crashed =>
      case Skipped(u) =>
        ScanMeaning(opts, urls, fetch, u, b - 1, low, out);
      case Fetched(blk, u) =>
        if blk.timestamp.Some? {
          var ts := blk.timestamp.value;
          var next := Harvest(opts, ts, blk.transactions, out);
          HarvestMeaning(opts, ts, blk.transactions, out);
          AdmittedMeaning(opts, ts, blk.transactions);
          ScanMeaning(opts, urls, fetch, u, b - 1, low, next);
          ScanRecords(out, next, Scan(opts, urls, fetch, u, b - 1, low, next).result, opts);
        }
    }
  }

  /** Chaining two extensions: what `out` grows into through `next` keeps `out` in front and adds only well-formed records. */
  lemma ScanRecords(out: seq<Record>, next: seq<Record>, res: Result<seq<Record>, LoadError>, opts: Settings)
    requires |out| <= |next| && next[..|out|] == out
    requires forall r :: r in next[|out|..] ==> WellFormed(opts, r)
    requires res.Ok? ==> |next| <= |res.value| && res.value[..|next|] == next
                         && forall r :: r in res.value[|next|..] ==> WellFormed(opts, r)
    ensures res.Ok? ==> |out| <= |res.value| && res.value[..|out|] == out
                        && forall r :: r in res.value[|out|..] ==> WellFormed(opts, r)
  {
    if res.Ok? {
      var all := res.value;
      forall r | r in all[|out|..] ensures WellFormed(opts, r) {
        var i :| |out| <= i < |all| && all[i] == r;
        if i < |next| {
          assert next[i] == r;
          assert r in next[|out|..];
        } else {
          assert r in all[|next|..];
        }
      }
    }
  }

  /**
   * What `load_from_eth` promises: it fails exactly when no endpoint is
   * configured, a setting does not parse or no endpoint answers, or a block
   * read crashes; it asks for blocks from the head of the first answering
   * endpoint downwards, never below the scan start; it returns at most
   * `max_tx` well-formed records, none in ERC-20-only mode.
   */
  lemma LoadMeaning(env: Env, headOf: string -> Option<int>, fetch: (string, int) -> Reply)
    ensures Load(env, headOf, fetch).result == Err(NoUrls) <==> GetUrls(env.rpcUrl) == []
    ensures Load(env, headOf, fetch).result == Err(NoHead) <==>
              GetUrls(env.rpcUrl) != [] && SettingsOf(env).Ok?
              && forall u :: u in GetUrls(env.rpcUrl) ==> headOf(u).None?
    ensures GetUrls(env.rpcUrl) != [] && SettingsOf(env).Ok? && FirstAnswering(GetUrls(env.rpcUrl), headOf, 0).Some? ==>
              var urls := GetUrls(env.rpcUrl);
              var head := headOf(urls[FirstAnswering(urls, headOf, 0).value]).value;
              var v := Load(env, headOf, fetch).visited;
              forall i :: 0 <= i < |v| ==> v[i] == head - i && v[i] >= ScanStart(head, SettingsOf(env).value.blocksBack)
    ensures Load(env, headOf, fetch).result.Ok? ==>
              var opts := SettingsOf(env).value;
              var records := Load(env, headOf, fetch).result.value;
              |records| <= (if opts.maxTx > 0 then opts.maxTx else 0)
              && (forall r :: r in records ==> WellFormed(opts, r))
              && (opts.onlyErc20 ==> records == [])
  {
    var urls := GetUrls(env.rpcUrl);
    if urls != [] && SettingsOf(env).Ok? {
      var opts := SettingsOf(env).value;
      var first := FirstAnswering(urls, headOf, 0);
      if first.Some? {
        var head := headOf(urls[first.value]).value;
        var low := ScanStart(head, opts.blocksBack);
        ScanMeaning(opts, urls, fetch, urls[first.value], head, low, []);
        ScanNeverNoHead(opts, urls, fetch, urls[first.value], head, low, []);
        ScanNeverNoUrls(opts, urls, fetch, urls[first.value], head, low, []);
        var res := Scan(opts, urls, fetch, urls[first.value], head, low, []).result;
        if res.Ok? {
          assert res.value[0..] == res.value;
        }
      } else {
        forall u | u in urls ensures headOf(u).None? {
          var j :| 0 <= j < |urls| && urls[j] == u;
        }
      }
    }
    if urls != [] && SettingsOf(env).Ok? && forall u :: u in urls ==> headOf(u).None? {
      forall j | 0 <= j < |urls| ensures headOf(urls[j]).None? {
        assert urls[j] in urls;
      }
    }
  }

  /**
   * A scan that succeeds below the cap asks for every block from `b` down to
   * `low`, skipped ones included; with `ScanMeaning` these are exactly
   * `b, b - 1, ..., low`.
   */
  lemma {:induction false} ScanCovers(opts: Settings, urls: seq<string>, fetch: (string, int) -> Reply, used: string, b: int, low: int, out: seq<Record>)
    ensures var o := Scan(opts, urls, fetch, used, b, low, out);
            o.result.Ok? && |o.result.value| < opts.maxTx ==> |o.visited| == (if b < low then 0 else b - low + 1)
    decreases if b < low then 0 else b - low + 1
  {
    if !(b < low || |out| >= opts.maxTx) {
      match FetchBlock(urls, used, fetch, b)
      case Crashed =>
      case Skipped(u) =>
        ScanCovers(opts, urls, fetch, u, b - 1, low, out);
      case Fetched(blk, u) =>
        if blk.timestamp.Some? {
          ScanCovers(opts, urls, fetch, u, b - 1, low, Harvest(opts, blk.timestamp.value, blk.transactions, out));
        }
    }
  }

  /**
   * A load that succeeds below the cap asks for every block from the head of
   * the first answering endpoint down to the scan start.
   */
  lemma LoadCovers(env: Env, headOf: string -> Option<int>, fetch: (string, int) -> Reply)
    ensures var urls := GetUrls(env.rpcUrl);
            var o := Load(env, headOf, fetch);
            o.result.Ok? && |o.result.value| < SettingsOf(env).value.maxTx ==>
              urls != [] && SettingsOf(env).Ok? && FirstAnswering(urls, headOf, 0).Some?
              && var head := headOf(urls[FirstAnswering(urls, headOf, 0).value]).value;
                 var low := ScanStart(head, SettingsOf(env).value.blocksBack);
                 |o.visited| == (if head < low then 0 else head - low + 1)
  {
    var urls := GetUrls(env.rpcUrl);
    if urls != [] && SettingsOf(env).Ok? {
      var opts := SettingsOf(env).value;
      var first := FirstAnswering(urls, headOf, 0);
      if first.Some? {
        var head := headOf(urls[first.value]).value;
        ScanCovers(opts, urls, fetch, urls[first.value], head, ScanStart(head, opts.blocksBack), []);
      }
    }
  }

  /** A scan only ends in the errors of a block read. */
  lemma {:induction false} ScanNeverNoHead(opts: Settings, urls: seq<string>, fetch: (string, int) -> Reply, used: string, b: int, low: int, out: seq<Record>)
    ensures Scan(opts, urls, fetch, used, b, low, out).result != Err(NoHead)
    decreases if b < low then 0 else b - low + 1
  {
    if !(b < low || |out| >= opts.maxTx) {
      match FetchBlock(urls, used, fetch, b)
      case Crashed =>
      case Skipped(u) =>
        ScanNeverNoHead(opts, urls, fetch, u, b - 1, low, out);
      case Fetched(blk, u) =>
        if blk.timestamp.Some? {
          ScanNeverNoHead(opts, urls, fetch, u, b - 1, low, Harvest(opts, blk.timestamp.value, blk.transactions, out));
        }
    }
  }

  lemma {:induction false} ScanNeverNoUrls(opts: Settings, urls: seq<string>, fetch: (string, int) -> Reply, used: string, b: int, low: int, out: seq<Record>)
    ensures Scan(opts, urls, fetch, used, b, low, out).result != Err(NoUrls)
    decreases if b < low then 0 else b - low + 1
  {
    if !(b < low || |out| >= opts.maxTx) {
      match FetchBlock(urls, used, fetch, b)
      case Crashed =>
      case Skipped(u) =>
        ScanNeverNoUrls(opts, urls, fetch, u, b - 1, low, out);
      case Fetched(blk, u) =>
        if blk.timestamp.Some? {
          ScanNeverNoUrls(opts, urls, fetch, u, b - 1, low, Harvest(opts, blk.timestamp.value, blk.transactions, out));
        }
    }
  }

  /**
   * `load_from_eth`: reads the settings, takes the first endpoint that reports
   * a head block, then walks from the head down to the scan start, fetching
   * each block with failover and collecting its transactions, and stops once
   * `max_tx` records are held. `visited` lists the blocks asked for.
   */
  method LoadFromEth(env: Env, headOf: string -> Option<int>, fetch: (string, int) -> Reply)
    returns (r: Result<seq<Record>, LoadError>, ghost visited: seq<int>)
    ensures r == Load(env, headOf, fetch).result
    ensures Outcome(r, visited) == Load(env, headOf, fetch)
  {
    visited := [];
    var urls := GetUrls(env.rpcUrl);
    if urls == [] {
      return Err(NoUrls), visited;
    }
    var blocksBack := IntSetting(env.blocksBack, 20);
    if blocksBack.None? {
      return Err(BadSetting("ETH_BLOCKS_BACK")), visited;
    }
    var maxTx := IntSetting(env.maxTx, 50);
    if maxTx.None? {
      return Err(BadSetting("ETH_MAX_TX")), visited;
    }
    var opts := Settings(blocksBack.value, maxTx.value, EnvBool(env.onlyErc20, false), env.minWei,
                         env.chainName.GetOr("ETH"));
    assert SettingsOf(env) == Ok(opts);

    var lastBlock: Option<int> := None;
    var usedUrl := "";
    ghost var at := 0;
    for i := 0 to |urls|
      invariant FirstAnswering(urls, headOf, 0) == FirstAnswering(urls, headOf, i)
    {
      var h := headOf(urls[i]);
      if h.Some? {
        lastBlock := h;
        usedUrl := urls[i];
        at := i;
        break;
      }
    }
    if lastBlock.None? {
      return Err(NoHead), visited;
    }
    assert FirstAnswering(urls, headOf, 0) == Some(at) && usedUrl == urls[at] && lastBlock == headOf(urls[at]);

    var last := lastBlock.value;
    r, visited := ScanBlocks(opts, urls, fetch, usedUrl, last, ScanStart(last, opts.blocksBack));
  }

  /** The outcome of a scan that had already asked for the blocks in `trace`. */
  function Behind(trace: seq<int>, o: Outcome): Outcome {
    Outcome(o.result, trace + o.visited)
  }

  /** A block that does not end the scan hands it on to the next block, with the endpoint and records it leaves. */
  lemma ScanAdvance(opts: Settings, urls: seq<string>, fetch: (string, int) -> Reply, trace: seq<int>, used: string,
                    b: int, low: int, out: seq<Record>, nextUsed: string, nextOut: seq<Record>)
    requires low <= b && |out| < opts.maxTx
    requires var f := FetchBlock(urls, used, fetch, b);
             BlockError(f, b).None? && nextUsed == f.via
             && nextOut == if f.Fetched? then Harvest(opts, f.block.timestamp.value, f.block.transactions, out) else out
    ensures Behind(trace, Scan(opts, urls, fetch, used, b, low, out))
            == Behind(trace + [b], Scan(opts, urls, fetch, nextUsed, b - 1, low, nextOut))
  {
    var rest := Scan(opts, urls, fetch, nextUsed, b - 1, low, nextOut);
    assert Scan(opts, urls, fetch, used, b, low, out) == Outcome(rest.result, [b] + rest.visited);
    assert trace + ([b] + rest.visited) == (trace + [b]) + rest.visited;
  }

  /** A block that ends the scan ends it with its error. */
  lemma ScanHalts(opts: Settings, urls: seq<string>, fetch: (string, int) -> Reply, trace: seq<int>, used: string,
                  b: int, low: int, out: seq<Record>)
    requires low <= b && |out| < opts.maxTx
    requires BlockError(FetchBlock(urls, used, fetch, b), b).Some?
    ensures Behind(trace, Scan(opts, urls, fetch, used, b, low, out))
            == Outcome(Err(BlockError(FetchBlock(urls, used, fetch, b), b).value), trace + [b])
  {
  }

  /** A scan past its lowest block, or with `max_tx` records held, ends with what it holds. */
  lemma ScanDone(opts: Settings, urls: seq<string>, fetch: (string, int) -> Reply, trace: seq<int>, used: string,
                 b: int, low: int, out: seq<Record>)
    requires b < low || |out| >= opts.maxTx
    ensures Behind(trace, Scan(opts, urls, fetch, used, b, low, out)) == Outcome(Ok(out), trace)
  {
    assert trace + [] == trace;
  }

  /** What ending a block with a crash means: the error it gives, if any. */
  function BlockError(f: BlockFetch, b: int): Option<LoadError> {
    if f.Crashed? then Some(NullBlock(b))
    else if f.Fetched? && f.block.timestamp.None? then Some(BadTimestamp(b))
    else None
  }

  /**
   * One block of the loop: fetch it with failover, switch to the
   * endpoint that answered, and collect its transactions; or report the error
   * that ends the load.
   */
  method ScanBlock(opts: Settings, urls: seq<string>, fetch: (string, int) -> Reply, used: string, b: int, out0: seq<Record>)
    returns (stop: Option<LoadError>, usedUrl: string, out: seq<Record>)
    ensures var f := FetchBlock(urls, used, fetch, b);
            stop == BlockError(f, b)
            && (stop.None? ==>
                  usedUrl == f.via
                  && out == if f.Fetched? then Harvest(opts, f.block.timestamp.value, f.block.transactions, out0) else out0)
  {
    usedUrl, out := used, out0;
    var got := FetchWithFailover(urls, used, fetch, b);
    match got {
      case Crashed =>
        return Some(NullBlock(b)), usedUrl, out;
      case Skipped(u) =>
        usedUrl := u;
      case Fetched(blk, u) =>
        usedUrl := u;
        if blk.timestamp.None? {
          return Some(BadTimestamp(b)), usedUrl, out;
        }
        out := HarvestBlock(opts, blk.timestamp.value, blk.transactions, out);
    }
    stop := None;
  }

  /**
   * The block loop of `load_from_eth`: from `last` down to
   * `start`, stopping once `max_tx` records are held, fetching each block with
   * failover and collecting its transactions.
   */
  method ScanBlocks(opts: Settings, urls: seq<string>, fetch: (string, int) -> Reply, used: string, last: int, start: int)
    returns (r: Result<seq<Record>, LoadError>, ghost visited: seq<int>)
    ensures r == Scan(opts, urls, fetch, used, last, start, []).result
    ensures Outcome(r, visited) == Scan(opts, urls, fetch, used, last, start, [])
  {
    visited := [];
    var out: seq<Record> := [];
    var usedUrl := used;
    ghost var spec := Scan(opts, urls, fetch, used, last, start, []);
    assert spec == Behind([], spec);
    if start <= last {
      for b := last + 1 downto start
        invariant spec == Behind(visited, Scan(opts, urls, fetch, usedUrl, b - 1, start, out))
      {
        if |out| >= opts.maxTx {
          ScanDone(opts, urls, fetch, visited, usedUrl, b, start, out);
          return Ok(out), visited;
        }
        var stop, nextUrl, nextOut := ScanBlock(opts, urls, fetch, usedUrl, b, out);
        if stop.Some? {
          ScanHalts(opts, urls, fetch, visited, usedUrl, b, start, out);
          return Err(stop.value), visited + [b];
        }
        ScanAdvance(opts, urls, fetch, visited, usedUrl, b, start, out, nextUrl, nextOut);
        visited, usedUrl, out := visited + [b], nextUrl, nextOut;
      }
    }
    ScanDone(opts, urls, fetch, visited, usedUrl, start - 1, start, out);
    return Ok(out), visited;
  }
}
