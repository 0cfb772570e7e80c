/** The statement-statistics analysis: per-statement advice for the most expensive
    statements and the N+1 suspects among the most frequently called ones, over rows
    of the statement-statistics view handed in by the caller. */
module QueryStats {
  import opened Common
  import opened Text
  import opened Plans
  import opened PlanMetrics

  /** A row of the expensive-statements listing: text, calls, total and mean time in
      milliseconds, rows returned, shared blocks read from disk and found in cache. */
  datatype StatsRow = StatsRow(
    query: string, calls: int, totalTime: real, meanTime: real,
    rows: int, blksRead: int, blksHit: int)

  /** A row of the frequent-statements listing. */
  datatype CallsRow = CallsRow(query: string, calls: int, meanTime: real, rows: int)

  /** The thresholds of the N+1 rule; the calls threshold also drives the hot-statement rule. */
  datatype Thresholds = Thresholds(callsThreshold: int, maxMeanTimeMs: real, maxRows: int)

  /** The defaults: more than 1000 calls, under 10 ms each, at most 10 rows. */
  const DefaultThresholds: Thresholds := Thresholds(1000, 10.0, 10)

  /** A statement is heavy when its mean time exceeds this many milliseconds. */
  const HeavyMeanTimeMs: real := 50.0

  /** Called often and slow on average. */
  predicate IsHotQuery(calls: int, meanTime: real, callsThreshold: int) {
    calls > callsThreshold && meanTime > HeavyMeanTimeMs
  }

  /** More blocks came from disk than from the cache. */
  predicate IsLowHitRate(blksRead: int, blksHit: int) {
    blksRead > blksHit
  }

  /** Called very often, fast, and returning few rows: the shape of a statement
      issued once per row of an earlier result. */
  predicate IsNPlusOneSuspect(r: CallsRow, t: Thresholds) {
    r.calls > t.callsThreshold && r.meanTime < t.maxMeanTimeMs && r.rows <= t.maxRows
  }

  /** The advice for one expensive statement. */
  datatype QueryAdvice =
    | FrequentAndHeavy(calls: int, meanTime: real)
    | LowHitRate(blksHit: int, blksRead: int)

  /** The advice for one row, the hot-statement rule first. */
  function StatementAdvice(r: StatsRow, callsThreshold: int): (advice: seq<QueryAdvice>)
    ensures |advice| <= 2
    ensures FrequentAndHeavy(r.calls, r.meanTime) in advice <==> IsHotQuery(r.calls, r.meanTime, callsThreshold)
    ensures LowHitRate(r.blksHit, r.blksRead) in advice <==> IsLowHitRate(r.blksRead, r.blksHit)
    ensures forall a :: a in advice ==> a == FrequentAndHeavy(r.calls, r.meanTime) || a == LowHitRate(r.blksHit, r.blksRead)
    ensures |advice| == 2 ==> advice[0].FrequentAndHeavy? && advice[1].LowHitRate?
  {
    (if IsHotQuery(r.calls, r.meanTime, callsThreshold) then [FrequentAndHeavy(r.calls, r.meanTime)] else [])
    + (if IsLowHitRate(r.blksRead, r.blksHit) then [LowHitRate(r.blksHit, r.blksRead)] else [])
  }

  /** The plan of a statement, or the message of the error raised while planning it. */
  datatype PlanOutcome = Analyzed(metrics: NodeMetrics) | Unavailable(error: string)

  /** The planner: the plan of a statement, or the error the server raised. */
  type Explainer = string -> Result<Plan, string>

  /** The analysed plan, always with the default CPU tuple cost. */
  function PlanOf(explain: Explainer, query: string): PlanOutcome {
    match explain(query)
    case Success(p) => Analyzed(ExtractMetrics(p, DefaultCpuTupleCost))
    case Failure(e) => Unavailable(e)
  }

  /** One entry of the detailed report. */
  datatype DetailedQuery = DetailedQuery(
    query: string, calls: int, totalTimeMs: real, meanTimeMs: real,
    rows: int, blksRead: int, blksHit: int,
    recommendations: seq<QueryAdvice>, plan: PlanOutcome)

  /** The report entry of one row: the statement text stripped, the figures as
      read, the advice, and the plan of the statement as it was read. */
  function Detail(r: StatsRow, callsThreshold: int, explain: Explainer): DetailedQuery {
    DetailedQuery(Strip(r.query), r.calls, r.totalTime, r.meanTime, r.rows, r.blksRead, r.blksHit,
                  StatementAdvice(r, callsThreshold), PlanOf(explain, r.query))
  }

  /** The detailed report of a listing, one entry per row in row order. */
  function Details(rows: seq<StatsRow>, callsThreshold: int, explain: Explainer): (ds: seq<DetailedQuery>)
    ensures |ds| == |rows|
  {
    if rows == [] then []
    else Details(rows[..|rows| - 1], callsThreshold, explain) + [Detail(rows[|rows| - 1], callsThreshold, explain)]
  }

  /** Entry `i` of the detailed report is the report entry of row `i`. */
  lemma {:induction false} DetailsPerRow(rows: seq<StatsRow>, callsThreshold: int, explain: Explainer)
    ensures forall i :: 0 <= i < |rows| ==> Details(rows, callsThreshold, explain)[i] == Detail(rows[i], callsThreshold, explain)
  {
    if rows != [] {
      DetailsPerRow(rows[..|rows| - 1], callsThreshold, explain);
    }
  }

  /** One N+1 suspect. */
  datatype Suspect = Suspect(query: string, calls: int, meanTimeMs: real, rowsPerCall: int)

  function SuspectOf(r: CallsRow): Suspect {
    Suspect(Strip(r.query), r.calls, r.meanTime, r.rows)
  }

  /** The rows that the N+1 rule flags, in input order. */
  function SuspectRows(rows: seq<CallsRow>, t: Thresholds): seq<CallsRow> {
    Filter((r: CallsRow) => IsNPlusOneSuspect(r, t), rows)
  }

  /** The suspects reported for a listing. */
  function Suspects(rows: seq<CallsRow>, t: Thresholds): seq<Suspect> {
    Map(SuspectOf, SuspectRows(rows, t))
  }

  /** A row is reported exactly when the N+1 rule flags it. */
  lemma SuspectRowsExactly(rows: seq<CallsRow>, t: Thresholds)
    ensures forall r :: r in SuspectRows(rows, t) <==> r in rows && IsNPlusOneSuspect(r, t)
  {
    FilterMembers((r: CallsRow) => IsNPlusOneSuspect(r, t), rows);
  }

  /** Suspects keep input order: the suspects of two listings one after the other are
      the suspects of the first followed by those of the second. */
  lemma SuspectsKeepOrder(a: seq<CallsRow>, b: seq<CallsRow>, t: Thresholds)
    ensures SuspectRows(a + b, t) == SuspectRows(a, t) + SuspectRows(b, t)
    ensures Suspects(a + b, t) == Suspects(a, t) + Suspects(b, t)
  {
    FilterAppend((r: CallsRow) => IsNPlusOneSuspect(r, t), a, b);
    MapAppend(SuspectOf, SuspectRows(a, t), SuspectRows(b, t));
  }

  /** A suspect is reported exactly when some row the rule flags yields it, and
      there are never more suspects than rows. */
  lemma SuspectsExactly(rows: seq<CallsRow>, t: Thresholds)
    ensures |Suspects(rows, t)| <= |rows|
    ensures forall s :: s in Suspects(rows, t) <==> exists r :: r in rows && IsNPlusOneSuspect(r, t) && s == SuspectOf(r)
  {
    MapFilterMembers((r: CallsRow) => IsNPlusOneSuspect(r, t), SuspectOf, rows);
  }

  lemma SuspectRowsOfOne(r: CallsRow, t: Thresholds)
    ensures SuspectRows([r], t) == if IsNPlusOneSuspect(r, t) then [r] else []
  {
    assert [r][..0] == [];
  }

  /** Many fast calls returning one row are flagged; the same row taking 200 ms on
      average is not. */
  lemma FastFrequentCallsAreSuspect(q: string)
    ensures Suspects([CallsRow(q, 5000, 2.0, 1), CallsRow(q, 5000, 200.0, 1)], DefaultThresholds)
            == [Suspect(Strip(q), 5000, 2.0, 1)]
  {
    var t := DefaultThresholds;
    var r1, r2 := CallsRow(q, 5000, 2.0, 1), CallsRow(q, 5000, 200.0, 1);
    assert IsNPlusOneSuspect(r1, t) && !IsNPlusOneSuspect(r2, t);
    SuspectRowsOfOne(r1, t);
    SuspectRowsOfOne(r2, t);
    SuspectsKeepOrder([r1], [r2], t);
    assert [r1] + [r2] == [r1, r2];
    assert SuspectRows([r1, r2], t) == [r1];
    assert Map(SuspectOf, [r1]) == [SuspectOf(r1)];
  }

  /** The N+1 loop: the rows that the rule flags, as suspects, in input order. */
  method CollectSuspects(rows: seq<CallsRow>, t: Thresholds) returns (suspects: seq<Suspect>)
    ensures suspects == Suspects(rows, t)
  {
    suspects := [];
    var i := 0;
    while i < |rows|
      invariant 0 <= i <= |rows|
      invariant suspects == Suspects(rows[..i], t)
    {
      var r := rows[i];
      SuspectsKeepOrder(rows[..i], [r], t);
      assert rows[..i + 1] == rows[..i] + [r];
      if r.calls > t.callsThreshold && r.meanTime < t.maxMeanTimeMs && r.rows <= t.maxRows {
        suspects := suspects + [SuspectOf(r)];
      }
      i := i + 1;
    }
    assert rows[..i] == rows;
  }

  /** The whole report. */
  datatype Report = Report(detailedQueries: seq<DetailedQuery>, nPlusOneSuspects: seq<Suspect>)

  /** The statistics analysis over the two listings: one detailed entry per expensive
      row, in order, each with its advice and plan, then the N+1 suspects. */
  method FullPgAnalysis(topRows: seq<StatsRow>, callsRows: seq<CallsRow>, t: Thresholds, explain: Explainer)
    returns (report: Report)
    ensures report.detailedQueries == Details(topRows, t.callsThreshold, explain)
    ensures report.nPlusOneSuspects == Suspects(callsRows, t)
  {
    var detailed: seq<DetailedQuery> := [];
    var i := 0;
    while i < |topRows|
      invariant 0 <= i <= |topRows|
      invariant detailed == Details(topRows[..i], t.callsThreshold, explain)
    {
      var d := AnalyzeStatement(topRows[i], t.callsThreshold, explain);
      assert topRows[..i + 1][..i] == topRows[..i];
      detailed := detailed + [d];
      i := i + 1;
    }
    assert topRows[..i] == topRows;
    var suspects := CollectSuspects(callsRows, t);
    report := Report(detailed, suspects);
  }

  /** The body of the first loop: plan the statement, then apply the two rules in order. */
  method AnalyzeStatement(r: StatsRow, callsThreshold: int, explain: Explainer) returns (d: DetailedQuery)
    ensures d == Detail(r, callsThreshold, explain)
  {
    var plan := PlanOf(explain, r.query);
    var recommendations: seq<QueryAdvice> := [];
    if r.calls > callsThreshold && r.meanTime > HeavyMeanTimeMs {
      recommendations := recommendations + [FrequentAndHeavy(r.calls, r.meanTime)];
    }
    if r.blksRead > r.blksHit {
      recommendations := recommendations + [LowHitRate(r.blksHit, r.blksRead)];
    }
    d := DetailedQuery(Strip(r.query), r.calls, r.totalTime, r.meanTime, r.rows,
                       r.blksRead, r.blksHit, recommendations, plan);
  }
}
