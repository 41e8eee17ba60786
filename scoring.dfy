/**
 * The scoring engine (app/engine/scoring.py): the list and weight loaders and
 * `score_transaction`, which runs the eight rules in a fixed order and turns
 * their penalties into a score `clamp(100 - sum of hits, 0, 100)`.
 *
 * Files are given already read: a CSV file as its rows of cells (`None` when
 * the file does not exist), the weights file as its parsed JSON document.
 */
module Scoring {
  import opened Wrappers
  import opened Text
  import opened Rules

  // ---------------------------------------------------------------------------
  // Single-column list files
  // ---------------------------------------------------------------------------

  /** A CSV row: its cells, `[]` for a blank line. */
  type Row = seq<string>

  /** A row with a non-blank first cell supplies a value. */
  predicate Supplies(row: Row) {
    row != [] && Strip(row[0]) != ""
  }

  /** The value a supplying row gives: its first cell stripped, upper-cased on request. */
  function Cell(row: Row, upper: bool): string
    requires row != []
  {
    var v := Strip(row[0]);
    if upper then Upper(v) else v
  }

  /** What one row adds: its value, if it supplies one. */
  function RowValue(row: Row, upper: bool): set<string> {
    if Supplies(row) then {Cell(row, upper)} else {}
  }

  /** The values the given rows supply, row by row. */
  function Column(rows: seq<Row>, upper: bool): set<string> {
    if rows == [] then {} else Column(rows[..|rows| - 1], upper) + RowValue(rows[|rows| - 1], upper)
  }

  /** The rows that carry data: all but the first when the first is not blank (a header). */
  function DataRows(rows: seq<Row>): seq<Row> {
    if |rows| > 0 && rows[0] != [] then rows[1..] else rows
  }

  /** What `_load_single_col_csv` returns for a file; a missing file gives the empty set. */
  function ColumnSet(file: Option<seq<Row>>, upper: bool): set<string> {
    match file
    case None => {}
    case Some(rows) => Column(DataRows(rows), upper)
  }

  /** A value is read exactly when some row supplies it. */
  lemma ColumnMembers(rows: seq<Row>, upper: bool, v: string)
    ensures v in Column(rows, upper) <==> exists i :: 0 <= i < |rows| && v in RowValue(rows[i], upper)
  {
    if v in Column(rows, upper) {
      ColumnSource(rows, upper, v);
    }
    if exists i :: 0 <= i < |rows| && v in RowValue(rows[i], upper) {
      var i :| 0 <= i < |rows| && v in RowValue(rows[i], upper);
      ColumnHas(rows, upper, i);
    }
  }

  /** Every row's value is read. */
  lemma {:induction false} ColumnHas(rows: seq<Row>, upper: bool, i: nat)
    requires i < |rows|
    ensures RowValue(rows[i], upper) <= Column(rows, upper)
  {
    if i < |rows| - 1 {
      var init := rows[..|rows| - 1];
      assert init[i] == rows[i];
      ColumnHas(init, upper, i);
    }
  }

  /** Every value read comes from some row. */
  lemma {:induction false} ColumnSource(rows: seq<Row>, upper: bool, v: string)
    requires v in Column(rows, upper)
    ensures exists i :: 0 <= i < |rows| && v in RowValue(rows[i], upper)
  {
    var init := rows[..|rows| - 1];
    if v in Column(init, upper) {
      ColumnSource(init, upper, v);
      var i :| 0 <= i < |init| && v in RowValue(init[i], upper);
      assert init[i] == rows[i];
    } else {
      assert v in RowValue(rows[|rows| - 1], upper);
    }
  }

  /** The values of two runs of rows are those of each. */
  lemma {:induction false} ColumnAppend(a: seq<Row>, b: seq<Row>, upper: bool)
    ensures Column(a + b, upper) == Column(a, upper) + Column(b, upper)
  {
    if b != [] {
      assert (a + b)[..|a + b| - 1] == a + b[..|b| - 1];
      assert (a + b)[|a + b| - 1] == b[|b| - 1];
      ColumnAppend(a, b[..|b| - 1], upper);
    } else {
      assert a + b == a;
    }
  }

  /** A blank first line is read as data and contributes nothing, like a header would. */
  lemma BlankFirstRowIgnored(body: seq<Row>, upper: bool)
    ensures ColumnSet(Some([[]] + body), upper) == Column(body, upper)
  {
    ColumnAppend([[]], body, upper);
    var blank: seq<Row> := [[]];
    assert blank[..0] == [];
  }

  /** A non-blank first line is a header: its cell is not read. */
  lemma HeaderDropped(header: Row, body: seq<Row>, upper: bool)
    requires header != []
    ensures ColumnSet(Some([header] + body), upper) == Column(body, upper)
  {
    assert ([header] + body)[1..] == body;
  }

  lemma UpperIdempotent(s: string)
    ensures Upper(Upper(s)) == Upper(s)
  {
    assert forall i :: 0 <= i < |s| ==> Upper(Upper(s))[i] == Upper(s)[i];
  }

  /**
   * `_load_single_col_csv` over the rows of the file: a non-blank first row is
   * a header and is skipped; every other row with a non-blank first cell adds
   * that cell, stripped and upper-cased when `upper` is set.
   */
  method LoadSingleColCsv(file: Option<seq<Row>>, upper: bool) returns (out: set<string>)
    ensures out == ColumnSet(file, upper)
    ensures forall v :: v in out ==> Clean(v, upper)
  {
    out := {};
    if file.Some? {
      var rows := file.value;
      var data := if |rows| > 0 && rows[0] != [] then rows[1..] else rows;
      for i := 0 to |data|
        invariant out == Column(data[..i], upper)
      {
        var row := data[i];
        ColumnStep(data, i, upper);
        if row == [] {
          continue;
        }
        var v := Strip(row[0]);
        if v == "" {
          continue;
        }
        out := out + {if upper then Upper(v) else v};
      }
      assert data[..|data|] == data;
      ColumnValues(data, upper);
    }
  }

  /** Reading one more row adds that row's value. */
  lemma ColumnStep(rows: seq<Row>, i: nat, upper: bool)
    requires i < |rows|
    ensures Column(rows[..i + 1], upper) == Column(rows[..i], upper) + RowValue(rows[i], upper)
  {
    assert rows[..i + 1][..i] == rows[..i];
  }

  /** A value as the loader keeps it: non-empty, stripped, and upper-case when asked for. */
  predicate Clean(v: string, upper: bool) {
    v != "" && !IsSpace(v[0]) && !IsSpace(v[|v| - 1]) && (upper ==> Upper(v) == v)
  }

  /** Every value read is non-empty, stripped, and upper-case when asked for. */
  lemma ColumnValues(rows: seq<Row>, upper: bool)
    ensures forall v :: v in Column(rows, upper) ==> Clean(v, upper)
  {
    forall v | v in Column(rows, upper)
      ensures Clean(v, upper)
    {
      ColumnMembers(rows, upper, v);
      var i :| 0 <= i < |rows| && v in RowValue(rows[i], upper);
      CellShape(rows[i], upper);
    }
  }

  lemma CellShape(row: Row, upper: bool)
    requires Supplies(row)
    ensures Clean(Cell(row, upper), upper)
  {
    var v := Strip(row[0]);
    if upper {
      var u := Upper(v);
      assert u[0] == UpperChar(v[0]);
      assert u[|u| - 1] == UpperChar(v[|v| - 1]);
      UpperKeepsSpace(v[0]);
      UpperKeepsSpace(v[|v| - 1]);
      UpperIdempotent(v);
    }
  }

  // ---------------------------------------------------------------------------
  // The weight table
  // ---------------------------------------------------------------------------

  /** A parsed JSON value; an object is read into a dict, so its keys are distinct. */
  datatype Json =
    | JNull
    | JBool(b: bool)
    | JInt(i: int)
    | JFloat(x: real)
    | JText(s: string)
    | JList(items: seq<Json>)
    | JObject(members: map<string, Json>)

  /** Python's `int(v)` for a JSON value, `None` where it raises. */
  function IntOf(v: Json): Option<int> {
    match v
    case JNull => None
    case JBool(b) => Some(if b then 1 else 0)
    case JInt(i) => Some(i)
    case JFloat(x) => Some(if x >= 0.0 then x.Floor else -((-x).Floor))
    case JText(s) => ParseInt(s)
    case JList(_) => None
    case JObject(_) => None
  }

  /** `weights.json`: missing, unreadable (I/O or JSON syntax error), or parsed. */
  datatype WeightsFile = Missing | Unreadable | Parsed(doc: Json)

  /** The members of the weights document, when it is an object. */
  function Overrides(file: WeightsFile): map<string, Json> {
    if file.Parsed? && file.doc.JObject? then file.doc.members else map[]
  }

  /** The merge `_load_weights` computes: defaults, replaced or extended by every convertible override. */
  function Merged(defaults: map<string, int>, members: map<string, Json>): map<string, int> {
    map k | k in defaults.Keys + members.Keys && (k in defaults || IntOf(members[k]).Some?)
      :: if k in members && IntOf(members[k]).Some? then IntOf(members[k]).value else defaults[k]
  }

  /**
   * The merge keeps every default, adds nothing that is neither a default nor
   * an override, takes every convertible override's value and leaves every
   * other default alone.
   */
  lemma MergedMeaning(defaults: map<string, int>, members: map<string, Json>)
    ensures defaults.Keys <= Merged(defaults, members).Keys
    ensures forall k :: k in Merged(defaults, members) ==> k in defaults || k in members
    ensures forall k :: k in members && IntOf(members[k]).Some? ==>
              k in Merged(defaults, members) && Merged(defaults, members)[k] == IntOf(members[k]).value
    ensures forall k :: k in defaults && (k !in members || IntOf(members[k]).None?) ==>
              Merged(defaults, members)[k] == defaults[k]
    ensures Merged(defaults, map[]) == defaults
  {
  }

  /** Taking one more member into the merge sets its key when its value converts. */
  lemma MergedAdd(defaults: map<string, int>, done: map<string, Json>, k: string, v: Json)
    requires k !in done
    ensures Merged(defaults, done[k := v])
            == if IntOf(v).Some? then Merged(defaults, done)[k := IntOf(v).value] else Merged(defaults, done)
  {
    var before := Merged(defaults, done);
    var after := Merged(defaults, done[k := v]);
    var expected := if IntOf(v).Some? then before[k := IntOf(v).value] else before;
    assert after.Keys == expected.Keys;
    forall x | x in after
      ensures after[x] == expected[x]
    {
      if x != k {
        assert x in done[k := v] <==> x in done;
      }
    }
  }

  /**
   * `_load_weights`: starts from a copy of `DefaultWeights` and, when the file
   * holds a JSON object, sets every member whose value converts to an int.
   */
  method LoadWeights(file: WeightsFile) returns (weights: map<string, int>)
    ensures weights == Merged(DefaultWeights, Overrides(file))
    ensures DefaultWeights.Keys <= weights.Keys
    ensures forall k :: k in Overrides(file) && IntOf(Overrides(file)[k]).Some? ==>
              k in weights && weights[k] == IntOf(Overrides(file)[k]).value
    ensures !(file.Parsed? && file.doc.JObject?) ==> weights == DefaultWeights
  {
    MergedMeaning(DefaultWeights, Overrides(file));
    weights := DefaultWeights;
    if file.Parsed? && file.doc.JObject? {
      var members := file.doc.members;
      var todo := members.Keys;
      ghost var done: map<string, Json> := map[];
      while todo != {}
        invariant todo <= members.Keys
        invariant done.Keys == members.Keys - todo
        invariant forall k :: k in done ==> done[k] == members[k]
        invariant weights == Merged(DefaultWeights, done)
        decreases todo
      {
        var k :| k in todo;
        MergedAdd(DefaultWeights, done, k, members[k]);
        match IntOf(members[k]) {
          case Some(v) => weights := weights[k := v];
          case None =>
        }
        done := done[k := members[k]];
        todo := todo - {k};
      }
      assert done == members;
    }
  }

  /** `get_env_int`: the variable's integer value, or the default when it is unset or malformed. */
  function EnvInt(v: Option<string>, default: int): int {
    match v
    case None => default
    case Some(s) => ParseInt(s).GetOr(default)
  }

  /** A variable holding the decimal text of `n` reads back as `n`. */
  lemma EnvIntRoundTrip(n: int, default: int)
    ensures EnvInt(Some(ShowInt(n)), default) == n
  {
    ParseShowInt(n);
  }

  // ---------------------------------------------------------------------------
  // Scoring one transaction
  // ---------------------------------------------------------------------------

  /** What `score_transaction` returns. */
  datatype ScoreResult = ScoreResult(
    score: int,
    reasons: seq<Reason>,
    hits: map<string, int>,
    velocityLastWindow: nat)

  function Clamp(x: int): (r: int)
    ensures 0 <= r <= 100
    ensures 0 <= x <= 100 ==> r == x
  {
    if x < 0 then 0 else if x > 100 then 100 else x
  }

  /** The sum of the hits of the first `k` rules, taken in rule order. */
  function PenaltyUpTo(hits: map<string, int>, k: nat): int
    requires k <= |RuleOrder|
  {
    if k == 0 then 0
    else
      var n := RuleOrder[k - 1].Name();
      PenaltyUpTo(hits, k - 1) + (if n in hits then hits[n] else 0)
  }

  /** The sum of the weights of those of the first `k` rules that fire. */
  function FiredWeight(ctx: RuleContext, tx: Tx, now: int, k: nat): int
    requires k <= |RuleOrder|
    reads ctx
  {
    if k == 0 then 0
    else
      var r := RuleOrder[k - 1];
      FiredWeight(ctx, tx, now, k - 1) + (if ctx.Fires(r, tx, now) then ctx.Weight(r) else 0)
  }

  /** The result `score_transaction` must give for `tx`. */
  function Expected(ctx: RuleContext, tx: Tx, now: int): ScoreResult
    reads ctx
  {
    var f := ctx.Run(tx, now, |RuleOrder|);
    ScoreResult(
      Clamp(100 - PenaltyUpTo(f.hits, |RuleOrder|)),
      f.reasons,
      f.hits,
      if ctx.Weight(Velocity) == 0 then 0 else ctx.VelocityCount(tx, now))
  }

  /**
   * The hits the first `k` rules leave behind: one for exactly the rules among
   * them that fire, keyed by rule name and valued at the rule's non-zero weight.
   */
  lemma RunHits(ctx: RuleContext, tx: Tx, now: int, k: nat)
    requires k <= |RuleOrder|
    ensures ctx.Run(tx, now, k).hits.Keys <= RuleNames
    ensures forall r: Rule :: r.Name() in ctx.Run(tx, now, k).hits <==> r.Index() < k && ctx.Fires(r, tx, now)
    ensures forall r: Rule :: r.Name() in ctx.Run(tx, now, k).hits ==>
              r.Name() in ctx.weights && ctx.Run(tx, now, k).hits[r.Name()] == ctx.weights[r.Name()] != 0
  {
    RunHitKeys(ctx, tx, now, k);
    RunHitValues(ctx, tx, now, k);
  }

  /** The keys of the hits: the names of the rules among the first `k` that fire. */
  lemma {:induction false} RunHitKeys(ctx: RuleContext, tx: Tx, now: int, k: nat)
    requires k <= |RuleOrder|
    ensures ctx.Run(tx, now, k).hits.Keys <= RuleNames
    ensures forall r: Rule :: r.Name() in ctx.Run(tx, now, k).hits <==> r.Index() < k && ctx.Fires(r, tx, now)
  {
    if k > 0 {
      RunHitKeys(ctx, tx, now, k - 1);
      var rule := RuleOrder[k - 1];
      assert rule.Index() == k - 1;
      forall r: Rule | r.Name() == rule.Name() ensures r == rule {
        NameInjective(r, rule);
      }
    }
  }

  /** The value of each hit: the rule's weight, which is non-zero. */
  lemma {:induction false} RunHitValues(ctx: RuleContext, tx: Tx, now: int, k: nat)
    requires k <= |RuleOrder|
    ensures forall r: Rule :: r.Name() in ctx.Run(tx, now, k).hits ==>
              r.Name() in ctx.weights && ctx.Run(tx, now, k).hits[r.Name()] == ctx.weights[r.Name()] != 0
  {
    if k > 0 {
      RunHitValues(ctx, tx, now, k - 1);
      var rule := RuleOrder[k - 1];
      forall r: Rule | r.Name() == rule.Name() ensures r == rule {
        NameInjective(r, rule);
      }
    }
  }

  /**
   * The reasons the first `k` rules leave behind: one per hit, each the reason
   * of a rule among them that fires, in rule order.
   */
  lemma {:induction false} RunReasons(ctx: RuleContext, tx: Tx, now: int, k: nat)
    requires k <= |RuleOrder|
    ensures |ctx.Run(tx, now, k).reasons| == |ctx.Run(tx, now, k).hits|
    ensures forall i :: 0 <= i < |ctx.Run(tx, now, k).reasons| ==>
              var r := ctx.Run(tx, now, k).reasons[i].RuleOf();
              r.Index() < k && ctx.Fires(r, tx, now) && ctx.Run(tx, now, k).reasons[i] == ctx.ReasonFor(r, tx, now)
    ensures forall i, j :: 0 <= i < j < |ctx.Run(tx, now, k).reasons| ==>
              ctx.Run(tx, now, k).reasons[i].RuleOf().Index() < ctx.Run(tx, now, k).reasons[j].RuleOf().Index()
  {
    if k > 0 {
      RunReasons(ctx, tx, now, k - 1);
      var prev := ctx.Run(tx, now, k - 1);
      var rule := RuleOrder[k - 1];
      assert rule.Index() == k - 1;
      if ctx.Fires(rule, tx, now) {
        RunHits(ctx, tx, now, k - 1);
        assert rule.Name() !in prev.hits;
        assert ctx.Run(tx, now, k).reasons == prev.reasons + [ctx.ReasonFor(rule, tx, now)];
      }
    }
  }

  /** A rule whose weight is 0 or missing leaves neither a hit nor a reason. */
  lemma ZeroWeightDisables(ctx: RuleContext, tx: Tx, now: int, rule: Rule)
    requires ctx.Weight(rule) == 0
    ensures rule.Name() !in Expected(ctx, tx, now).hits
    ensures forall i :: 0 <= i < |Expected(ctx, tx, now).reasons| ==>
              Expected(ctx, tx, now).reasons[i].RuleOf() != rule
    ensures rule == Velocity ==> Expected(ctx, tx, now).velocityLastWindow == 0
  {
    RunHits(ctx, tx, now, |RuleOrder|);
    RunReasons(ctx, tx, now, |RuleOrder|);
  }

  /** Summing the hits in rule order gives the total weight of the rules that fire. */
  lemma {:induction false} PenaltyIsFiredWeight(ctx: RuleContext, tx: Tx, now: int, k: nat)
    requires k <= |RuleOrder|
    ensures PenaltyUpTo(ctx.Run(tx, now, |RuleOrder|).hits, k) == FiredWeight(ctx, tx, now, k)
  {
    if k > 0 {
      RunHits(ctx, tx, now, |RuleOrder|);
      PenaltyIsFiredWeight(ctx, tx, now, k - 1);
      assert RuleOrder[k - 1].Index() == k - 1;
    }
  }

  /** With no hits at all the penalty is 0. */
  lemma {:induction false} NoHitsNoPenalty(k: nat)
    requires k <= |RuleOrder|
    ensures PenaltyUpTo(map[], k) == 0
  {
    if k > 0 {
      NoHitsNoPenalty(k - 1);
    }
  }

  /** The score is `clamp(100 - weights of the rules that fire)`, and 100 when nothing fires. */
  lemma ScoreIsClampedPenalty(ctx: RuleContext, tx: Tx, now: int)
    ensures Expected(ctx, tx, now).score == Clamp(100 - FiredWeight(ctx, tx, now, |RuleOrder|))
    ensures Expected(ctx, tx, now).hits == map[] ==> Expected(ctx, tx, now).score == 100
  {
    PenaltyIsFiredWeight(ctx, tx, now, |RuleOrder|);
    NoHitsNoPenalty(|RuleOrder|);
  }

  /** A lone blacklist hit of 60 costs 60 points. */
  lemma BlacklistPenalty()
    ensures PenaltyUpTo(map["blacklist" := 60], |RuleOrder|) == 60
  {
    var hits := map["blacklist" := 60];
    assert PenaltyUpTo(hits, 1) == 60;
    assert PenaltyUpTo(hits, 3) == 60;
    assert PenaltyUpTo(hits, 5) == 60;
    assert PenaltyUpTo(hits, 7) == 60;
  }

  /** With the default weights, a blacklisted sender and no other rule firing scores 40. */
  lemma BlacklistOnly(ctx: RuleContext, tx: Tx, now: int)
    requires ctx.weights == DefaultWeights
    requires forall r: Rule :: ctx.Fires(r, tx, now) <==> r == Blacklist
    ensures Expected(ctx, tx, now).hits == map["blacklist" := 60]
    ensures Expected(ctx, tx, now).reasons == [InBlacklist]
    ensures Expected(ctx, tx, now).score == 40
  {
    OnlyBlacklistRun(ctx, tx, now, |RuleOrder|);
    assert ctx.Weight(Blacklist) == 60;
    BlacklistScore(ctx, tx, now);
  }

  lemma {:induction false} OnlyBlacklistRun(ctx: RuleContext, tx: Tx, now: int, k: nat)
    requires 1 <= k <= |RuleOrder|
    requires forall r: Rule :: ctx.Fires(r, tx, now) <==> r == Blacklist
    ensures ctx.Run(tx, now, k) == Found(map["blacklist" := ctx.Weight(Blacklist)], [InBlacklist])
  {
    if k > 1 {
      OnlyBlacklistRun(ctx, tx, now, k - 1);
      assert !ctx.Fires(RuleOrder[k - 1], tx, now);
    } else {
      assert ctx.Fires(Blacklist, tx, now);
    }
  }

  lemma BlacklistScore(ctx: RuleContext, tx: Tx, now: int)
    requires ctx.Run(tx, now, |RuleOrder|).hits == map["blacklist" := 60]
    ensures Expected(ctx, tx, now).score == 40
  {
    BlacklistPenalty();
  }

  class ScoreEngine {
    var prevTransactions: seq<Tx>
    var knownAddresses: set<string>
    var blacklist: set<string>
    var watchlist: set<string>
    var sensitiveTokens: set<string>
    var sensitiveMethods: set<string>
    var weights: map<string, int>
    var ctx: RuleContext

    /**
     * Loads the four list files and the weights file and builds the rule
     * context. The two integer rule parameters come from the variables
     * `VELOCITY_WINDOW_MIN` (default 10) and `VELOCITY_MAX_TX` (default 5).
     */
    constructor (
      blacklistCsv: Option<seq<Row>>,
      watchlistCsv: Option<seq<Row>>,
      sensitiveTokensCsv: Option<seq<Row>>,
      sensitiveMethodsCsv: Option<seq<Row>>,
      weightsFile: WeightsFile,
      prevTransactions: Option<seq<Tx>>,
      knownAddresses: Option<set<string>>,
      amountThreshold: real,
      velocityWindowVar: Option<string>,
      velocityMaxVar: Option<string>)
      ensures this.blacklist == ColumnSet(blacklistCsv, false)
      ensures this.watchlist == ColumnSet(watchlistCsv, false)
      ensures this.sensitiveTokens == ColumnSet(sensitiveTokensCsv, true)
      ensures this.sensitiveMethods == ColumnSet(sensitiveMethodsCsv, true)
      ensures this.weights == Merged(DefaultWeights, Overrides(weightsFile))
      ensures this.prevTransactions == prevTransactions.GetOr([]) && this.knownAddresses == knownAddresses.GetOr({})
      ensures fresh(ctx)
      ensures ctx.blacklist == LowerAll(this.blacklist) && ctx.watchlist == LowerAll(this.watchlist)
      ensures ctx.knownAddresses == LowerAll(knownAddresses.GetOr({}))
      ensures ctx.sensitiveTokens == this.sensitiveTokens && ctx.sensitiveMethods == this.sensitiveMethods
      ensures ctx.prevTransactions == prevTransactions.GetOr([])
      ensures ctx.weights == this.weights
      ensures ctx.amountThreshold == amountThreshold
      ensures ctx.velocityWindowMin == EnvInt(velocityWindowVar, 10)
      ensures ctx.velocityMaxTx == EnvInt(velocityMaxVar, 5)
    {
      var bl := LoadSingleColCsv(blacklistCsv, false);
      var wl := LoadSingleColCsv(watchlistCsv, false);
      var st := LoadSingleColCsv(sensitiveTokensCsv, true);
      UpperAllOfUpper(st);
      var sm := LoadSingleColCsv(sensitiveMethodsCsv, true);
      UpperAllOfUpper(sm);
      var w := LoadWeights(weightsFile);
      assert "blacklist" in w;
      var prev, known := prevTransactions.GetOr([]), knownAddresses.GetOr({});
      var c := new RuleContext(bl, wl, known, st, sm, Some(prev), Some(w), amountThreshold,
                               EnvInt(velocityWindowVar, 10), EnvInt(velocityMaxVar, 5));
      this.prevTransactions := prev;
      this.knownAddresses := known;
      this.blacklist := bl;
      this.watchlist := wl;
      this.sensitiveTokens := st;
      this.sensitiveMethods := sm;
      this.weights := w;
      this.ctx := c;
    }

    /**
     * `score_transaction`: runs the eight rules in order on fresh findings,
     * subtracts every hit from 100 and clamps the result to [0, 100]. `now`
     * stands for the wall clock the velocity rule reads when the transaction's
     * timestamp does not parse. Nothing but the fresh findings is changed.
     */
    method ScoreTransaction(tx: Tx, now: int) returns (res: ScoreResult)
      ensures res == Expected(ctx, tx, now)
    {
      var acc := new Findings();
      var velocityCount := ApplyRules(ctx, tx, now, acc);
      var hits, reasons := acc.hits, acc.reasons;

      // `hits` is filled in rule order, so its items come in rule order.
      var score := 100;
      for i := 0 to |RuleOrder|
        invariant score == 100 - PenaltyUpTo(hits, i)
      {
        var name := RuleOrder[i].Name();
        if name in hits {
          score := score - hits[name];
        }
      }
      if score < 0 { score := 0; }
      if score > 100 { score := 100; }
      res := ScoreResult(score, reasons, hits, velocityCount);
    }
  }

  /** The eight rules of `score_transaction`, in rule order, on the caller's findings. */
  method ApplyRules(ctx: RuleContext, tx: Tx, now: int, acc: Findings) returns (velocityCount: nat)
    requires acc.State() == Found(map[], [])
    modifies acc
    ensures acc.State() == ctx.Run(tx, now, |RuleOrder|)
    ensures velocityCount == if ctx.Weight(Velocity) == 0 then 0 else ctx.VelocityCount(tx, now)
  {
    EarlySteps(ctx, tx, now);
    LateSteps(ctx, tx, now);
    ctx.CheckBlacklist(tx, acc);
    ctx.CheckWatchlist(tx, acc);
    ctx.CheckHighAmount(tx, acc);
    ctx.CheckUnusualHour(tx, acc);
    ctx.CheckNewAddress(tx, acc);
    velocityCount := ctx.CheckVelocity(tx, now, acc);
    ctx.CheckSensitiveToken(tx, acc);
    ctx.CheckSensitiveMethod(tx, acc);
  }

  /** The steps of the list, amount and hour rules, written the way each rule states its effect. */
  lemma EarlySteps(ctx: RuleContext, tx: Tx, now: int)
    ensures ctx.Run(tx, now, 1)
            == Found(map[], []).Note(Blacklist, ctx.Weight(Blacklist), Listed(ctx.blacklist, tx), InBlacklist)
    ensures ctx.Run(tx, now, 2)
            == ctx.Run(tx, now, 1).Note(Watchlist, ctx.Weight(Watchlist), Listed(ctx.watchlist, tx), InWatchlist)
    ensures ctx.Run(tx, now, 3)
            == ctx.Run(tx, now, 2).Note(HighAmount, ctx.Weight(HighAmount), AmountOf(tx) >= ctx.amountThreshold,
                                        LargeAmount(ctx.amountThreshold))
    ensures ctx.Run(tx, now, 4)
            == ctx.Run(tx, now, 3).Note(UnusualHour, ctx.Weight(UnusualHour), HourOf(tx) < 6, NightHour)
  {
  }

  /** The steps of the new-address, velocity, token and method rules. */
  lemma LateSteps(ctx: RuleContext, tx: Tx, now: int)
    ensures ctx.Run(tx, now, 5)
            == ctx.Run(tx, now, 4).Note(NewAddress, ctx.Weight(NewAddress),
                                        Lower(tx.fromAddress) != "" && Lower(tx.fromAddress) !in ctx.knownAddresses,
                                        UnknownSender)
    ensures ctx.Run(tx, now, 6) == ctx.Step(Velocity, tx, now, ctx.Run(tx, now, 5))
    ensures ctx.Run(tx, now, 7)
            == ctx.Run(tx, now, 6).Note(SensitiveToken, ctx.Weight(SensitiveToken), Flagged(ctx.sensitiveTokens, tx.token),
                                        FlaggedToken(Upper(tx.token)))
    ensures ctx.Run(tx, now, 8)
            == ctx.Run(tx, now, 7).Note(SensitiveMethod, ctx.Weight(SensitiveMethod),
                                        Flagged(ctx.sensitiveMethods, tx.methodName), FlaggedMethod(Upper(tx.methodName)))
  {
  }

  /** The properties of the expected result that `score_transaction` promises. */
  lemma ExpectedShape(ctx: RuleContext, tx: Tx, now: int)
    ensures 0 <= Expected(ctx, tx, now).score <= 100
    ensures Expected(ctx, tx, now).score == Clamp(100 - FiredWeight(ctx, tx, now, |RuleOrder|))
    ensures |Expected(ctx, tx, now).reasons| == |Expected(ctx, tx, now).hits|
    ensures Expected(ctx, tx, now).hits.Keys <= RuleNames
  {
    RunHits(ctx, tx, now, |RuleOrder|);
    RunReasons(ctx, tx, now, |RuleOrder|);
    ScoreIsClampedPenalty(ctx, tx, now);
  }

  /** Upper-casing an upper-cased set changes nothing. */
  lemma UpperAllOfUpper(xs: set<string>)
    requires forall v :: v in xs ==> Clean(v, true)
    ensures UpperAll(xs) == xs
  {
    assert forall v :: v in xs ==> Upper(v) == v && Upper(v) in UpperAll(xs);
  }
}
