/**
 * The detection rules of the scoring engine (app/engine/rules.py).
 *
 * A `RuleContext` holds the case-normalised address and token sets, the prior
 * transactions, the weight table and three numeric parameters. Each of its
 * eight rules reads a transaction and, when its weight is non-zero and its
 * condition holds, records `hits[name] := weight` and appends one reason to
 * the caller's `Findings`, which it updates in place.
 */
module Rules {
  import opened Wrappers
  import opened Text

  const MicrosPerMinute: int := 60_000_000
  const MicrosPerHour: int := 3_600_000_000

  /**
   * A parsed ISO-8601 timestamp: the instant as microseconds since the Unix
   * epoch (UTC) and the UTC offset it was written with. A timestamp without an
   * offset, or ending in `Z`, has offset 0.
   */
  datatype Instant = Instant(utcMicros: int, offsetMicros: int)

  /** `dt.hour`: the wall-clock hour in the timestamp's own offset. */
  function LocalHour(t: Instant): (h: int)
    ensures 0 <= h < 24
  {
    ((t.utcMicros + t.offsetMicros) / MicrosPerHour) % 24
  }

  /**
   * A transaction as the rules read it. A missing or `None` address, token or
   * method is the empty string; `amount` is `None` when it is missing or does
   * not convert to a number; `timestamp` is `None` when it is missing or does
   * not parse.
   */
  datatype Tx = Tx(
    fromAddress: string,
    toAddress: string,
    amount: Option<real>,
    timestamp: Option<Instant>,
    token: string,
    methodName: string)

  /** `float(tx.get("amount", 0) or 0)`, with 0 when the conversion fails. */
  function AmountOf(tx: Tx): real {
    tx.amount.GetOr(0.0)
  }

  /** The hour the unusual-hour rule tests: 0 when the timestamp does not parse. */
  function HourOf(tx: Tx): (h: int)
    ensures 0 <= h < 24
  {
    match tx.timestamp
    case Some(t) => LocalHour(t)
    case None => 0
  }

  /** Microseconds in a day. */
  const MicrosPerDay: int := 24 * MicrosPerHour

  /**
   * The hour is the time of day: the wall-clock instant lies in the
   * `LocalHour(t)`-th hour of its day, so the hour is below 6 exactly when
   * the time of day is before 06:00.
   */
  lemma LocalHourOfDay(t: Instant)
    ensures var d := (t.utcMicros + t.offsetMicros) % MicrosPerDay;
            LocalHour(t) * MicrosPerHour <= d < LocalHour(t) * MicrosPerHour + MicrosPerHour
    ensures LocalHour(t) < 6 <==> (t.utcMicros + t.offsetMicros) % MicrosPerDay < 6 * MicrosPerHour
  {
    var u := t.utcMicros + t.offsetMicros;
    var q := u / MicrosPerHour;
    var r := u % MicrosPerHour;
    var h := q % 24;
    assert u == q * MicrosPerHour + r;
    assert q == (q / 24) * 24 + h;
    assert u == (q / 24) * MicrosPerDay + (h * MicrosPerHour + r);
    assert 0 <= h * MicrosPerHour + r < MicrosPerDay;
    assert u % MicrosPerDay == h * MicrosPerHour + r;
  }

  /** 03:17 and 22:00 UTC written at +05:00 (03:00 local) are night hours; 14:00 is not. */
  lemma NightHourExamples()
    ensures LocalHour(Instant(3 * MicrosPerHour + 17 * MicrosPerMinute, 0)) == 3
    ensures LocalHour(Instant(22 * MicrosPerHour, 5 * MicrosPerHour)) == 3
    ensures LocalHour(Instant(14 * MicrosPerHour, 0)) == 14
  {
  }

  /** The eight rules, in evaluation order. */
  datatype Rule =
    | Blacklist | Watchlist | HighAmount | UnusualHour
    | NewAddress | Velocity | SensitiveToken | SensitiveMethod
  {
    /** The key of the rule in the weight table and in `hits`. */
    function Name(): string {
      match this
      case Blacklist => "blacklist"
      case Watchlist => "watchlist"
      case HighAmount => "high_amount"
      case UnusualHour => "unusual_hour"
      case NewAddress => "new_address"
      case Velocity => "velocity"
      case SensitiveToken => "sensitive_token"
      case SensitiveMethod => "sensitive_method"
    }

    /** The position of the rule in `RuleOrder`. */
    function Index(): (i: nat)
      ensures i < |RuleOrder| && RuleOrder[i] == this
    {
      match this
      case Blacklist => 0
      case Watchlist => 1
      case HighAmount => 2
      case UnusualHour => 3
      case NewAddress => 4
      case Velocity => 5
      case SensitiveToken => 6
      case SensitiveMethod => 7
    }
  }

  /** The order in which `score_transaction` calls the rules. */
  const RuleOrder: seq<Rule> :=
    [Blacklist, Watchlist, HighAmount, UnusualHour, NewAddress, Velocity, SensitiveToken, SensitiveMethod]

  const RuleNames: set<string> :=
    {"blacklist", "watchlist", "high_amount", "unusual_hour", "new_address", "velocity",
     "sensitive_token", "sensitive_method"}

  /** Distinct rules have distinct names. */
  lemma NameInjective(r: Rule, s: Rule)
    requires r.Name() == s.Name()
    ensures r == s
  {
  }

  /** `DEFAULT_WEIGHTS`: the penalty each rule subtracts from 100. */
  const DefaultWeights: map<string, int> :=
    map[
      "blacklist" := 60, "watchlist" := 30, "high_amount" := 25, "unusual_hour" := 15,
      "new_address" := 20, "velocity" := 20, "sensitive_token" := 15, "sensitive_method" := 15]

  /**
   * The explanation a rule appends when it fires; the human-readable sentence
   * is rendered from these fields.
   */
  datatype Reason =
    | InBlacklist
    | InWatchlist
    | LargeAmount(threshold: real)
    | NightHour
    | UnknownSender
    | Burst(count: nat, windowMin: int)
    | FlaggedToken(token: string)
    | FlaggedMethod(name: string)
  {
    /** The rule that gives this reason. */
    function RuleOf(): Rule {
      match this
      case InBlacklist => Blacklist
      case InWatchlist => Watchlist
      case LargeAmount(_) => HighAmount
      case NightHour => UnusualHour
      case UnknownSender => NewAddress
      case Burst(_, _) => Velocity
      case FlaggedToken(_) => SensitiveToken
      case FlaggedMethod(_) => SensitiveMethod
    }
  }

  /** The content of the caller's `hits` dict and `reasons` list. */
  datatype Found = Found(hits: map<string, int>, reasons: seq<Reason>) {
    /** What a rule leaves behind: its hit and reason when it fires, nothing otherwise. */
    function Note(rule: Rule, weight: int, holds: bool, reason: Reason): Found {
      if weight != 0 && holds then Found(hits[rule.Name() := weight], reasons + [reason]) else this
    }
  }

  /** The caller-owned `hits` dict and `reasons` list that the rules update in place. */
  class Findings {
    var hits: map<string, int>
    var reasons: seq<Reason>

    constructor ()
      ensures hits == map[] && reasons == []
    {
      hits := map[];
      reasons := [];
    }

    function State(): Found
      reads this
    {
      Found(hits, reasons)
    }
  }

  /** The set `{x.lower() for x in xs}`. */
  function LowerAll(xs: set<string>): set<string> {
    set x | x in xs :: Lower(x)
  }

  /** The set `{x.upper() for x in xs}`. */
  function UpperAll(xs: set<string>): set<string> {
    set x | x in xs :: Upper(x)
  }

  /** A lower-cased set matches a key exactly when some original member equals it up to case. */
  lemma LowerAllMatches(xs: set<string>, a: string)
    ensures Lower(a) in LowerAll(xs) <==> exists x :: x in xs && Lower(x) == Lower(a)
  {
  }

  /** Blacklist and watchlist condition: the lower-cased sender or recipient is listed. */
  predicate Listed(list: set<string>, tx: Tx) {
    Lower(tx.fromAddress) in list || Lower(tx.toAddress) in list
  }

  /** Sensitive token and method condition: the upper-cased value is non-empty and listed. */
  predicate Flagged(list: set<string>, value: string) {
    Upper(value) != "" && Upper(value) in list
  }

  /**
   * Does prior transaction `p` count towards the velocity of `sender` in the
   * window `[start, end]`? Its lower-cased sender must be `sender` and its
   * timestamp must parse and lie in the window, both ends included.
   */
  predicate InWindow(p: Tx, sender: string, start: int, end: int) {
    Lower(p.fromAddress) == sender && p.timestamp.Some?
    && start <= p.timestamp.value.utcMicros <= end
  }

  /** The number of prior transactions that count towards the velocity. */
  function CountInWindow(prev: seq<Tx>, sender: string, start: int, end: int): (n: nat)
    ensures n <= |prev|
  {
    if prev == [] then 0
    else CountInWindow(prev[..|prev| - 1], sender, start, end)
         + (if InWindow(prev[|prev| - 1], sender, start, end) then 1 else 0)
  }

  /** The prior transactions that count towards the velocity, by position. */
  function Matches(prev: seq<Tx>, sender: string, start: int, end: int): set<nat> {
    set i: nat | i < |prev| && InWindow(prev[i], sender, start, end)
  }

  /** The velocity count is the number of prior transactions in the window, each counted once. */
  lemma {:induction false} CountIsMatches(prev: seq<Tx>, sender: string, start: int, end: int)
    ensures CountInWindow(prev, sender, start, end) == |Matches(prev, sender, start, end)|
  {
    if prev == [] {
      assert Matches(prev, sender, start, end) == {};
    } else {
      var n := |prev| - 1;
      CountIsMatches(prev[..n], sender, start, end);
      MatchesLast(prev, sender, start, end);
    }
  }

  /** The matches of a list are those of all but its last element, and the last one if it matches. */
  lemma MatchesLast(prev: seq<Tx>, sender: string, start: int, end: int)
    requires prev != []
    ensures var n := |prev| - 1;
            |Matches(prev, sender, start, end)|
            == |Matches(prev[..n], sender, start, end)| + (if InWindow(prev[n], sender, start, end) then 1 else 0)
  {
    var n := |prev| - 1;
    var before := Matches(prev[..n], sender, start, end);
    var last: set<nat> := if InWindow(prev[n], sender, start, end) then {n} else {};
    forall i: nat | i < n
      ensures prev[..n][i] == prev[i]
    {
    }
    assert Matches(prev, sender, start, end) == before + last;
    assert n !in before;
  }

  /** Changing the letter case of the addresses does not change whether a list matches. */
  lemma ListedIgnoresCase(list: set<string>, tx: Tx)
    ensures Listed(list, tx.(fromAddress := Upper(tx.fromAddress), toAddress := Upper(tx.toAddress)))
            == Listed(list, tx)
  {
    LowerOfUpper(tx.fromAddress);
    LowerOfUpper(tx.toAddress);
  }

  class RuleContext {
    var blacklist: set<string>
    var watchlist: set<string>
    var knownAddresses: set<string>
    var sensitiveTokens: set<string>
    var sensitiveMethods: set<string>
    var prevTransactions: seq<Tx>
    var weights: map<string, int>
    var amountThreshold: real
    var velocityWindowMin: int
    var velocityMaxTx: int

    /**
     * Normalises the address sets to lower case and the token and method sets
     * to upper case; an absent prior list is empty, and an absent or empty
     * weight table is `DefaultWeights`.
     */
    constructor (
      blacklist: set<string>,
      watchlist: set<string>,
      knownAddresses: set<string>,
      sensitiveTokens: set<string>,
      sensitiveMethods: set<string>,
      prevTransactions: Option<seq<Tx>>,
      weights: Option<map<string, int>> := None,
      amountThreshold: real := 10000.0,
      velocityWindowMin: int := 10,
      velocityMaxTx: int := 5)
      ensures this.blacklist == LowerAll(blacklist)
      ensures this.watchlist == LowerAll(watchlist)
      ensures this.knownAddresses == LowerAll(knownAddresses)
      ensures this.sensitiveTokens == UpperAll(sensitiveTokens)
      ensures this.sensitiveMethods == UpperAll(sensitiveMethods)
      ensures this.prevTransactions == prevTransactions.GetOr([])
      ensures this.weights != map[]
      ensures weights.Some? && weights.value != map[] ==> this.weights == weights.value
      ensures weights.None? || weights.value == map[] ==> this.weights == DefaultWeights
      ensures this.amountThreshold == amountThreshold
      ensures this.velocityWindowMin == velocityWindowMin
      ensures this.velocityMaxTx == velocityMaxTx
    {
      this.blacklist := LowerAll(blacklist);
      this.watchlist := LowerAll(watchlist);
      this.knownAddresses := LowerAll(knownAddresses);
      this.sensitiveTokens := UpperAll(sensitiveTokens);
      this.sensitiveMethods := UpperAll(sensitiveMethods);
      this.prevTransactions := prevTransactions.GetOr([]);
      this.weights := if weights.Some? && weights.value != map[] then weights.value else DefaultWeights;
      this.amountThreshold := amountThreshold;
      this.velocityWindowMin := velocityWindowMin;
      this.velocityMaxTx := velocityMaxTx;
      assert "blacklist" in DefaultWeights;
    }

    /** `self.weights.get(name, 0)` */
    function Weight(rule: Rule): int
      reads this
    {
      if rule.Name() in weights then weights[rule.Name()] else 0
    }

    /** The end of the velocity window: the transaction's instant, or `now` when it does not parse. */
    function Anchor(tx: Tx, now: int): int {
      match tx.timestamp
      case Some(t) => t.utcMicros
      case None => now
    }

    /** How many prior transactions of the same sender fall in the window ending at the anchor. */
    function VelocityCount(tx: Tx, now: int): nat
      reads this
    {
      var end := Anchor(tx, now);
      CountInWindow(prevTransactions, Lower(tx.fromAddress), end - velocityWindowMin * MicrosPerMinute, end)
    }

    /** The condition a rule tests, whatever its weight. */
    predicate Holds(rule: Rule, tx: Tx, now: int)
      reads this
    {
      match rule
      case Blacklist => Listed(blacklist, tx)
      case Watchlist => Listed(watchlist, tx)
      case HighAmount => AmountOf(tx) >= amountThreshold
      case UnusualHour => HourOf(tx) < 6
      case NewAddress => Lower(tx.fromAddress) != "" && Lower(tx.fromAddress) !in knownAddresses
      case Velocity => VelocityCount(tx, now) >= velocityMaxTx
      case SensitiveToken => Flagged(sensitiveTokens, tx.token)
      case SensitiveMethod => Flagged(sensitiveMethods, tx.methodName)
    }

    /** A rule fires when its weight is non-zero and its condition holds. */
    predicate Fires(rule: Rule, tx: Tx, now: int)
      reads this
    {
      Weight(rule) != 0 && Holds(rule, tx, now)
    }

    /**
     * The unusual-hour condition holds exactly when the timestamp does not
     * parse or its wall-clock time of day is before 06:00.
     */
    lemma UnusualHourMeaning(tx: Tx, now: int)
      ensures Holds(UnusualHour, tx, now) <==>
                tx.timestamp.None?
                || (tx.timestamp.value.utcMicros + tx.timestamp.value.offsetMicros) % MicrosPerDay < 6 * MicrosPerHour
    {
      if tx.timestamp.Some? {
        LocalHourOfDay(tx.timestamp.value);
      }
    }

    /** The reason a rule appends when it fires. */
    function ReasonFor(rule: Rule, tx: Tx, now: int): (r: Reason)
      reads this
      ensures r.RuleOf() == rule
    {
      match rule
      case Blacklist => InBlacklist
      case Watchlist => InWatchlist
      case HighAmount => LargeAmount(amountThreshold)
      case UnusualHour => NightHour
      case NewAddress => UnknownSender
      case Velocity => Burst(VelocityCount(tx, now), velocityWindowMin)
      case SensitiveToken => FlaggedToken(Upper(tx.token))
      case SensitiveMethod => FlaggedMethod(Upper(tx.methodName))
    }

    /** The effect of one rule on the findings. */
    function Step(rule: Rule, tx: Tx, now: int, f: Found): Found
      reads this
    {
      f.Note(rule, Weight(rule), Holds(rule, tx, now), ReasonFor(rule, tx, now))
    }

    /** The findings after the first `k` rules of `RuleOrder`, starting from empty ones. */
    function Run(tx: Tx, now: int, k: nat): Found
      requires k <= |RuleOrder|
      reads this
    {
      if k == 0 then Found(map[], []) else Step(RuleOrder[k - 1], tx, now, Run(tx, now, k - 1))
    }

    method CheckBlacklist(tx: Tx, acc: Findings)
      modifies acc
      ensures acc.State() == old(acc.State()).Note(Blacklist, Weight(Blacklist), Listed(blacklist, tx), InBlacklist)
    {
      var w := if "blacklist" in weights then weights["blacklist"] else 0;
      if w == 0 { return; }
      var a := Lower(tx.fromAddress);
      var b := Lower(tx.toAddress);
      if a in blacklist || b in blacklist {
        acc.hits := acc.hits["blacklist" := w];
        acc.reasons := acc.reasons + [InBlacklist];
      }
    }

    method CheckWatchlist(tx: Tx, acc: Findings)
      modifies acc
      ensures acc.State() == old(acc.State()).Note(Watchlist, Weight(Watchlist), Listed(watchlist, tx), InWatchlist)
    {
      var w := if "watchlist" in weights then weights["watchlist"] else 0;
      if w == 0 { return; }
      var a := Lower(tx.fromAddress);
      var b := Lower(tx.toAddress);
      if a in watchlist || b in watchlist {
        acc.hits := acc.hits["watchlist" := w];
        acc.reasons := acc.reasons + [InWatchlist];
      }
    }

    method CheckHighAmount(tx: Tx, acc: Findings)
      modifies acc
      ensures acc.State() == old(acc.State()).Note(HighAmount, Weight(HighAmount), AmountOf(tx) >= amountThreshold, LargeAmount(amountThreshold))
    {
      var w := if "high_amount" in weights then weights["high_amount"] else 0;
      if w == 0 { return; }
      var amount := match tx.amount case Some(x) => x case None => 0.0;
      if amount >= amountThreshold {
        acc.hits := acc.hits["high_amount" := w];
        acc.reasons := acc.reasons + [LargeAmount(amountThreshold)];
      }
    }

    method CheckUnusualHour(tx: Tx, acc: Findings)
      modifies acc
      ensures acc.State() == old(acc.State()).Note(UnusualHour, Weight(UnusualHour), HourOf(tx) < 6, NightHour)
    {
      var w := if "unusual_hour" in weights then weights["unusual_hour"] else 0;
      if w == 0 { return; }
      var hour := match tx.timestamp case Some(t) => LocalHour(t) case None => 0;
      if hour < 6 {
        acc.hits := acc.hits["unusual_hour" := w];
        acc.reasons := acc.reasons + [NightHour];
      }
    }

    method CheckNewAddress(tx: Tx, acc: Findings)
      modifies acc
      ensures acc.State() == old(acc.State()).Note(NewAddress, Weight(NewAddress), Lower(tx.fromAddress) != "" && Lower(tx.fromAddress) !in knownAddresses, UnknownSender)
    {
      var w := if "new_address" in weights then weights["new_address"] else 0;
      if w == 0 { return; }
      var a := Lower(tx.fromAddress);
      if a != "" && a !in knownAddresses {
        acc.hits := acc.hits["new_address" := w];
        acc.reasons := acc.reasons + [UnknownSender];
      }
    }

    /**
     * Counts the prior transactions of the same sender in the window and fires
     * when there are at least `velocityMaxTx`; returns the count, or 0 when the
     * rule is disabled. `now` stands for the wall clock read when the
     * transaction's timestamp does not parse.
     */
    method CheckVelocity(tx: Tx, now: int, acc: Findings) returns (count: nat)
      modifies acc
      ensures count == if Weight(Velocity) == 0 then 0 else VelocityCount(tx, now)
      ensures acc.State() == Step(Velocity, tx, now, old(acc.State()))
    {
      var w := if "velocity" in weights then weights["velocity"] else 0;
      if w == 0 { return 0; }
      var a := Lower(tx.fromAddress);
      var nowT := match tx.timestamp case Some(t) => t.utcMicros case None => now;
      var windowStart := nowT - velocityWindowMin * MicrosPerMinute;
      count := 0;
      for i := 0 to |prevTransactions|
        invariant count == CountInWindow(prevTransactions[..i], a, windowStart, nowT)
      {
        assert prevTransactions[..i + 1][..i] == prevTransactions[..i];
        var p := prevTransactions[i];
        if Lower(p.fromAddress) != a {
          continue;
        }
        if p.timestamp.None? {
          continue;
        }
        var pdt := p.timestamp.value.utcMicros;
        if windowStart <= pdt <= nowT {
          count := count + 1;
        }
      }
      assert prevTransactions[..|prevTransactions|] == prevTransactions;
      if count >= velocityMaxTx {
        acc.hits := acc.hits["velocity" := w];
        acc.reasons := acc.reasons + [Burst(count, velocityWindowMin)];
      }
    }

    method CheckSensitiveToken(tx: Tx, acc: Findings)
      modifies acc
      ensures acc.State() == old(acc.State()).Note(SensitiveToken, Weight(SensitiveToken), Flagged(sensitiveTokens, tx.token), FlaggedToken(Upper(tx.token)))
    {
      var w := if "sensitive_token" in weights then weights["sensitive_token"] else 0;
      if w == 0 { return; }
      var token := Upper(tx.token);
      if token != "" && token in sensitiveTokens {
        acc.hits := acc.hits["sensitive_token" := w];
        acc.reasons := acc.reasons + [FlaggedToken(token)];
      }
    }

    method CheckSensitiveMethod(tx: Tx, acc: Findings)
      modifies acc
      ensures acc.State() == old(acc.State()).Note(SensitiveMethod, Weight(SensitiveMethod), Flagged(sensitiveMethods, tx.methodName), FlaggedMethod(Upper(tx.methodName)))
    {
      var w := if "sensitive_method" in weights then weights["sensitive_method"] else 0;
      if w == 0 { return; }
      var m := Upper(tx.methodName);
      if m != "" && m in sensitiveMethods {
        acc.hits := acc.hits["sensitive_method" := w];
        acc.reasons := acc.reasons + [FlaggedMethod(m)];
      }
    }
  }
}
