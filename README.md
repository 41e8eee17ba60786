# SafeScore: the scoring engine and the Ethereum collector, in Dafny

SafeScore gives each blockchain transaction a risk score. The score starts at
100, and eight detection rules subtract penalties from it: blacklist,
watchlist, high amount, unusual hour, new address, velocity, sensitive token
and sensitive method. The final score is clamped to `[0, 100]`, and the engine
returns the hits and a reason for each one. The transactions come from an
Ethereum collector. It picks the first JSON-RPC endpoint that reports a head
block, walks back over the latest blocks with per-block failover to the other
endpoints, filters the transactions and stops once it holds `max_tx` records.

The project has five files, one per source file modelled plus two shared ones:

- `wrappers.dfy`: `Option` and `Result`.
- `text.dfy` (module `Text`): the Python string operations the code relies on.
  These are `lower`/`upper` on ASCII letters, `strip` with Python's whitespace
  set, `replace`, `split`, `join` and decimal `int()`.
- `rules.dfy` (module `Rules`): `app/engine/rules.py`.
  - `RuleContext` is a class whose constructor normalises its sets.
  - Each `r_*` rule is a method, for example `RuleContext.CheckBlacklist`. It
    updates a `Findings` object in place. That object stands for the caller's
    `hits` dict and `reasons` list.
  - Every method's `ensures` gives the new findings through `Found.Note`:
    - when the rule fires, it sets exactly `hits[name] := weight` and appends
      exactly one reason;
    - otherwise, nothing changes.
  - `RuleContext.Run` is the specification of running the first `k` rules.
- `scoring.dfy` (module `Scoring`): `app/engine/scoring.py`.
  - The CSV list loader and the weight merge are loops, each proved against a
    specification function (`ColumnSet`, `Merged`).
  - `ScoreEngine` is a class whose constructor builds the rule context.
    - `ScoreTransaction` runs the eight rule methods on fresh findings, sums
      the hits in a loop and clamps the result.
    - It is proved equal to `Expected`.
    - The lemmas about `Expected` state the promised properties: score bounds,
      the score formula, hit/reason correspondence, rule order and zero-weight
      disabling.
  - `ScoreTransaction` has no `modifies` clause. It changes nothing but the
    findings it allocates, so scoring the same transaction twice gives the
    same result.
- `collector.dfy` (module `EthCollector`): `app/collectors/eth_collector.py`.
  - `_get_urls` and `_env_bool` are functions.
  - `load_from_eth` is a method. It has the head loop with `break`, the
    descending block loop with its `max_tx` check, the failover loop and the
    transaction loop.
  - The JSON-RPC calls are parameters:
    - `headOf(url)` is the answer to `eth_blockNumber`. It is `None` when the
      call raises.
    - `fetch(url, b)` is the answer to `eth_getBlockByNumber`: `Failed`, `Null`
      or a block.
  - Each loop is proved against a specification function: the recursive
    `FirstAnswering`, `FirstFallback` and `Scan`, and `Harvest` and `Load`,
    which are built on the recursive `Admitted` and `Scan`. The block loop
    and `load_from_eth` also return a ghost trace of the blocks they asked for.

## Behaviour worth noting

- **Unusual hour.** The rule tests `dt.hour`, which is the wall-clock hour in
  the timestamp's own UTC offset, not the UTC hour. A timestamp without an
  offset, or ending in `Z`, reads as UTC. `Instant` keeps the offset for this
  reason.
- **Errors during the scan.** Some of them end the load:
  - a current endpoint that answers a block with `null` makes the later
    `blk.get` raise, so the load ends;
  - a block timestamp that is not hex also ends the load;
  - a malformed `ETH_BLOCKS_BACK` or `ETH_MAX_TX` raises.

  The model returns these outcomes as `Err(NullBlock(b))`,
  `Err(BadTimestamp(b))` and `Err(BadSetting(name))`.
- **Answers from another endpoint.** When the current endpoint fails and
  another endpoint answers `null`, the code switches to that endpoint and
  skips the block.
- **ERC-20-only mode.** It drops every transaction: the code decodes no
  ERC-20 transfers, so no record is built in that mode.

## Model

| member | source | states |
|---|---|---|
| Rules.RuleContext.constructor | app/engine/rules.py:25-47 | address sets are lower-cased and token/method sets upper-cased; an absent prior list is empty; a missing or empty weight table becomes `DEFAULT_WEIGHTS`; the other parameters are kept |
| Rules.RuleContext.CheckBlacklist | app/engine/rules.py:49-56 | with a non-zero weight and the lower-cased sender or recipient in the blacklist, sets `hits["blacklist"]` to the weight and appends one reason; otherwise the findings are unchanged |
| Rules.RuleContext.CheckWatchlist | app/engine/rules.py:58-65 | the same for the watchlist |
| Rules.RuleContext.CheckHighAmount | app/engine/rules.py:67-76 | fires when the amount, 0 when it is missing or not numeric, is at least the threshold; its reason carries the threshold |
| Rules.RuleContext.CheckUnusualHour | app/engine/rules.py:78-94 | fires when the hour of the timestamp is below 6; a missing or unparseable timestamp counts as hour 0 and fires |
| Rules.HourOf | app/engine/rules.py:81-91 | the hour tested lies in `[0, 24)` |
| Rules.LocalHourOfDay | app/engine/rules.py:82-89 | `dt.hour` is the hour of the day in which the wall-clock time (the instant plus its offset) falls, so it is below 6 exactly when the time of day is before 06:00 |
| Rules.NightHourExamples | app/engine/rules.py:82-89 | 03:17 reads as hour 3; 22:00 UTC written at +05:00 reads as hour 3; 14:00 reads as hour 14 |
| Rules.RuleContext.UnusualHourMeaning | app/engine/rules.py:81-92 | the unusual-hour condition holds exactly when the timestamp is missing or does not parse, or its wall-clock time of day is before 06:00 |
| Rules.RuleContext.CheckNewAddress | app/engine/rules.py:96-102 | fires only for a non-empty lower-cased sender absent from the known addresses |
| Rules.RuleContext.CheckVelocity | app/engine/rules.py:104-140 | returns 0 when disabled, otherwise the number of prior transactions of the same lower-cased sender with a parseable timestamp in the window `[ts - window, ts]` (both ends included, `now` when `ts` does not parse); fires when that count reaches `velocity_max_tx` |
| Rules.CountIsMatches | app/engine/rules.py:120-135 | the velocity count equals the number of positions of prior transactions inside the window, each counted once |
| Rules.RuleContext.CheckSensitiveToken | app/engine/rules.py:142-148 | fires only for a non-empty upper-cased token in the upper-cased set; the reason carries the upper-cased token |
| Rules.RuleContext.CheckSensitiveMethod | app/engine/rules.py:150-156 | the same for the method |
| Rules.LowerAllMatches | app/engine/rules.py:38-40 | a lower-cased key is in a lower-cased set exactly when some original member equals it up to case |
| Rules.ListedIgnoresCase | app/engine/rules.py:52-54 | the blacklist and watchlist tests do not depend on the letter case of the addresses |
| Scoring.LoadSingleColCsv | app/engine/scoring.py:48-71 | returns exactly the values of the data rows (a missing file gives the empty set); every value is non-empty, stripped, and upper-case when `upper` is set |
| Scoring.ColumnMembers | app/engine/scoring.py:57-70 | a value is read exactly when some data row has a non-blank first cell that, stripped and upper-cased on request, equals it |
| Scoring.HeaderDropped | app/engine/scoring.py:55-62 | a non-empty first row is a header and contributes nothing |
| Scoring.BlankFirstRowIgnored | app/engine/scoring.py:55-70 | a blank first row makes the file read from the start, which gives the values of the remaining rows |
| Scoring.ColumnValues | app/engine/scoring.py:59-62 | every value read is non-empty, stripped and upper-case when asked for |
| Scoring.LoadWeights | app/engine/scoring.py:73-89 | the defaults merged with the overrides: every default key is kept; every override whose value converts with `int` replaces or adds its key; a missing, unreadable or non-object file gives exactly the defaults |
| Scoring.MergedMeaning | app/engine/scoring.py:76-85 | the merge adds no key that is neither a default nor an override, keeps each default whose override does not convert, and is the identity with no overrides |
| Scoring.EnvIntRoundTrip | app/engine/rules.py:18-22 | a variable holding the decimal text of `n` reads as `n` |
| Scoring.ScoreEngine.constructor | app/engine/scoring.py:11-46 | keeps the prior transactions (empty when absent) and the known addresses (empty when absent); loads the four lists (tokens and methods upper-cased) and the weights; builds a rule context whose fields are those values |
| Scoring.ScoreEngine.ScoreTransaction | app/engine/scoring.py:91-122 | the result is `Expected`: the findings of the eight rules in order, the clamped score, and the velocity count |
| Scoring.ApplyRules | app/engine/scoring.py:100-108 | the eight in-place rule calls leave the findings of `Run` over all rules and return the velocity count |
| Scoring.ExpectedShape | app/engine/scoring.py:110-122 | the score lies in `[0, 100]` and equals `clamp(100 - total weight of the rules that fire)`; there are as many reasons as hits; every hit key is a rule name |
| Scoring.RunHits | app/engine/scoring.py:100-108 | a rule has a hit exactly when it fires; every hit key is a rule name and its value is the rule's non-zero weight |
| Scoring.RunReasons | app/engine/scoring.py:100-108 | one reason per hit, each the reason of a rule that fires, in strictly increasing rule order |
| Scoring.ZeroWeightDisables | app/engine/rules.py:49-156 | a rule with weight 0 or no weight leaves no hit and no reason, and a disabled velocity rule reports a count of 0 |
| Scoring.PenaltyIsFiredWeight | app/engine/scoring.py:111-112 | summing the hits gives the total weight of the rules that fire |
| Scoring.ScoreIsClampedPenalty | app/engine/scoring.py:96-115 | the score is `clamp(100 - Σ hits)`, and 100 when there is no hit |
| Scoring.BlacklistOnly | app/engine/scoring.py:91-122 | with the default weights and only the blacklist rule firing, hits are `{"blacklist": 60}`, the one reason is the blacklist one, and the score is 40 |
| EthCollector.GetUrls | app/collectors/eth_collector.py:41-44 | every endpoint is non-empty and has no comma or space |
| EthCollector.GetUrlsJoin | app/collectors/eth_collector.py:41-44 | a comma-joined list of clean endpoints reads back as that list |
| EthCollector.GetUrlsUnset | app/collectors/eth_collector.py:42-44 | an unset variable gives no endpoint |
| EthCollector.EnvBoolSet | app/collectors/eth_collector.py:13-17 | a set variable ignores the default; a true word reads as true and the empty value as false |
| EthCollector.EnvBoolIgnoresCase | app/collectors/eth_collector.py:17 | the reading does not depend on letter case |
| EthCollector.IntSettingRoundTrip | app/collectors/eth_collector.py:51-52 | a setting holding the decimal text of `n` reads as `n`; an empty one is rejected |
| EthCollector.FirstAnswering | app/collectors/eth_collector.py:56-67 | the first endpoint in list order (from position `k`) that answers the head query, or none when none does |
| EthCollector.FirstFallback | app/collectors/eth_collector.py:79-87 | the first other endpoint, in list order, whose block call does not fail |
| EthCollector.FetchWithFailover | app/collectors/eth_collector.py:75-89 | equals `FetchBlock`: the current endpoint first, then the other endpoints in order |
| EthCollector.FailoverMeaning | app/collectors/eth_collector.py:75-89 | a fetched block is the answer of the endpoint now in use; the load crashes exactly when the current endpoint answers null; a switch happens only after the current endpoint fails, to the first other endpoint whose call does not fail; when all fail the block is skipped and the endpoint kept |
| EthCollector.FailoverSwitches | app/collectors/eth_collector.py:75-89 | when the current endpoint fails and `urls[i]` is the first other endpoint whose call does not fail, the fetch does not crash and switches to `urls[i]`, taking its block when it has one and skipping the block when it answers null |
| EthCollector.HarvestBlock | app/collectors/eth_collector.py:94-117 | equals `Harvest`: the old records followed by the block's admitted ones, up to the cap |
| EthCollector.AdmittedMeaning | app/collectors/eth_collector.py:97-117 | the admitted records are exactly those of the transactions at or above the minimum value, none in ERC-20-only mode; each is well-formed (token `ETH`, the chain name, method `TRANSFER` or `CALL`) and carries the block's timestamp |
| EthCollector.AdmittedAppend | app/collectors/eth_collector.py:94 | records keep the order of the transactions in the block |
| EthCollector.RecordMethod | app/collectors/eth_collector.py:105-106 | the method is `TRANSFER` exactly when the input is `"0x"`; the recipient is `""` exactly when it is null or empty |
| EthCollector.HarvestMeaning | app/collectors/eth_collector.py:94-96 | a block never takes the records past `max_tx`, keeps the old ones in front and adds only well-formed ones; at the cap it adds nothing |
| EthCollector.ScanBlock | app/collectors/eth_collector.py:75-117 | one block either ends the load with its error or leaves the endpoint that answered and the records after harvesting |
| EthCollector.ScanBlocks | app/collectors/eth_collector.py:69-119 | returns the result of `Scan`, and its ghost trace is the blocks `Scan` asks for |
| EthCollector.ScanMeaning | app/collectors/eth_collector.py:70-117 | blocks are asked for in strictly descending order from the head, none below the start; the result keeps what it had, never passes the cap and adds only well-formed records |
| EthCollector.ScanCovers | app/collectors/eth_collector.py:72-89 | a scan that succeeds with fewer than `max_tx` records asks for every block from the head down to the start, skipped ones included |
| EthCollector.LoadFromEth | app/collectors/eth_collector.py:46-119 | returns the result of `Load`, and its ghost trace is the blocks `Load` asks for |
| EthCollector.LoadMeaning | app/collectors/eth_collector.py:46-119 | it fails with `NoUrls` exactly when there is no endpoint, and with `NoHead` exactly when there are endpoints, the settings parse and none answers; blocks descend from the head of the first answering endpoint, none below `max(0, head - blocks_back + 1)`; a success has at most `max(0, max_tx)` well-formed records, none in ERC-20-only mode |
| EthCollector.LoadCovers | app/collectors/eth_collector.py:69-89 | a load that succeeds with fewer than `max_tx` records has found an answering endpoint and asks for every block from its head down to `max(0, head - blocks_back + 1)` |

## Left out

- HTTP and JSON-RPC transport (`_rpc_call`, timeouts, `raise_for_status`): the answers are the parameters `headOf` and `fetch`.
- Hex parsing (`_hex_to_int`, `int(h, 16)`): heads, block timestamps and values arrive as integers, or as `None` where the parse raises.
- Floating point: `_wei_to_eth` (`/ 1e18`), `round(..., 8)` and `float(ETH_INCLUDE_ETH_VALUE_MIN)`. Values stay in wei, the minimum is given in wei, and a record's amount is its value in wei.
- `time.strftime`/`time.gmtime` of a record's timestamp: the record keeps the block timestamp in seconds.
- `datetime.fromisoformat`: transaction timestamps arrive parsed, as an `Instant` or `None`.
- `datetime.now` in the velocity rule: it is the parameter `now`.
- Environment and file I/O:
  - each variable arrives as an `Option<string>`;
  - a CSV file arrives as its rows of cells, or `None` when it does not exist;
  - the weights file arrives as missing, unreadable, or its parsed JSON document.
- CSV quoting and JSON syntax: these belong to the parsers the code calls.
- `AMOUNT_THRESHOLD`: it is given as a real number, so a malformed value raising in `float()` is not modelled.
- `CHAIN_NAME` is read once per load; the code reads it once per record, with the same value.
- A transaction's `from` field that is JSON null: it is modelled as a string.
- Case mapping and `int()`:
  - `lower`/`upper` map only ASCII letters;
  - `int()` of text accepts optional surrounding whitespace, a sign and ASCII digits, but not `_` separators or non-ASCII digits;
  - `int()` of a float truncates toward zero. JSON infinities and NaN do not occur.
- The text of the reason strings: a reason is a datatype value that holds the fields the text is rendered from.
- Rules.RuleContext.CheckVelocity: does not model the `OverflowError` of `timedelta(minutes=...)` and of the subtraction from the anchor, raised when the window exceeds `timedelta`'s range (about 1.44e12 minutes) or the window start falls before year 1; instants are unbounded integers with no calendar range, so every integer window gives a count.
- Rules.RuleContext.CheckHighAmount: does not model amounts that `float()` turns into NaN or infinity (`"nan"`, `"inf"`, `1e400`); `amount` is a real number, so NaN, which never reaches the threshold, and infinity, which always does, cannot occur.
- EthCollector.LoadFromEth: does not model `float(ETH_INCLUDE_ETH_VALUE_MIN)` raising on malformed text before the first RPC call; the minimum arrives as an integer number of wei, because floating point is left out.
- EthCollector.HarvestBlock: does not model `time.gmtime(ts)` raising for a block timestamp outside the platform's `time_t` range; every such transaction is admitted, because timestamp formatting is left out.
- Scoring.ScoreEngine.ScoreTransaction: its own `ensures` is only `res == Expected(...)`. The bounds, the formula and the hit/reason shape are proved about `Expected` by `Scoring.ExpectedShape` and the lemmas beside it.
- `app/dashboard/app.py`, `gerar_relatorio.py`, `app/alerts/telegram.py`, `app/collectors/mock_collector.py` and `main.py` are not part of this model. They hold UI, reporting, alerting, random data and orchestration.
