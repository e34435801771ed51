/** The rule-based Conversational Analytics readiness checker: four checks over an
    explore's metadata, each giving PASS, WARNING or FAIL, an analyzer object that records
    their results by aspect (a check that raises records FAIL for its aspect only), and the
    summary that counts the outcomes. */
module ConversationAnalytics {
  import opened Strings
  import opened Wrappers
  import Sections

  /** `AnalysisStatus`. */
  datatype Status = Pass | Warning | Fail

  /** The optional `details` dictionary: absent, or one count under one key. */
  datatype Details = NoDetails | Count(key: string, count: nat)

  /** `AnalysisResult`. */
  datatype AnalysisResult = AnalysisResult(status: Status, message: string, details: Details)

  /** The `name` entry of a dimension or measure: absent (indexing raises KeyError), not a
      string (calling `.lower()` raises AttributeError naming its type), or a string. */
  datatype NameValue = Missing | NonString(typeName: string) | Str(s: string)

  /** A dimension or measure: its name, and its `type` ("" when absent or not a string). */
  datatype Field = Field(name: NameValue, fieldType: string)

  /** A join: its `type` ("" when absent or not a string). */
  datatype JoinInfo = JoinInfo(joinType: string)

  /** The explore metadata; a missing list is the empty list. */
  datatype ExploreData = ExploreData(dimensions: seq<Field>, measures: seq<Field>, joins: seq<JoinInfo>)

  /** `str(KeyError('name'))`. */
  const KeyErrorText := "'name'"

  /** `str(e)` for the AttributeError of `.lower()` on a value of type `typeName`. */
  function AttributeErrorText(typeName: string): string {
    "'" + typeName + "' object has no attribute 'lower'"
  }

  // ---------------------------------------------------------------------------
  // analyze_dimensions

  const RequiredDimensions: seq<string> := ["date", "user_id", "session_id"]

  /** `any(d['name'] == target for d in dims)`: stops at the first dimension named
      `target`; a dimension without a name met before that raises. */
  function AnyNamed(dims: seq<Field>, target: string): (r: Result<bool>)
    ensures r == Ok(true) ==> exists i :: 0 <= i < |dims| && dims[i].name == Str(target)
    ensures r == Ok(false) ==> forall i :: 0 <= i < |dims| ==> dims[i].name != Str(target)
    ensures r.Err? ==> r.error == KeyErrorText && exists i :: 0 <= i < |dims| && dims[i].name.Missing?
    ensures (forall i :: 0 <= i < |dims| ==> !dims[i].name.Missing?) ==> r.Ok?
    decreases |dims|
  {
    if |dims| == 0 then Ok(false)
    else match dims[0].name
      case Missing => Err(KeyErrorText)
      case NonString(_) => AnyNamed(dims[1..], target)
      case Str(s) => if s == target then Ok(true) else AnyNamed(dims[1..], target)
  }

  /** `[dim for dim in required if not any(...)]`: the required names no dimension has, in
      the order of `required`; the first failing `any` propagates its error. */
  function MissingNames(dims: seq<Field>, required: seq<string>): (r: Result<seq<string>>)
    ensures r.Ok? ==> Sections.IsSubsequence(r.value, required)
    ensures r.Ok? ==> forall x :: x in r.value <==>
      x in required && forall i :: 0 <= i < |dims| ==> dims[i].name != Str(x)
    ensures r.Err? ==> r.error == KeyErrorText && exists i :: 0 <= i < |dims| && dims[i].name.Missing?
    ensures (forall i :: 0 <= i < |dims| ==> !dims[i].name.Missing?) ==> r.Ok?
    decreases |required|
  {
    if |required| == 0 then Ok([])
    else match AnyNamed(dims, required[0])
      case Err(e) => Err(e)
      case Ok(found) =>
        match MissingNames(dims, required[1..])
        case Err(e) => Err(e)
        case Ok(rest) =>
          assert forall x :: x in required <==> x == required[0] || x in required[1..];
          if found then Ok(rest) else
            assert ([required[0]] + rest)[1..] == rest;
            Ok([required[0]] + rest)
  }

  /** `analyze_dimensions`; `Err` is the exception it raises. */
  function AnalyzeDimensions(dims: seq<Field>): (r: Result<AnalysisResult>)
    ensures |dims| == 0 ==> r == Ok(AnalysisResult(Fail, "No dimensions found in the Explore", NoDetails))
    ensures r.Ok? ==> r.value.status != Warning
    ensures r.Ok? && r.value.status == Pass ==>
      r.value.details == Count("dimension_count", |dims|)
      && forall x :: x in RequiredDimensions ==> exists i :: 0 <= i < |dims| && dims[i].name == Str(x)
    ensures |dims| > 0 && (forall i :: 0 <= i < |dims| ==> !dims[i].name.Missing?) ==>
      r.Ok? && (r.value.status == Pass <==>
        forall x :: x in RequiredDimensions ==> exists i :: 0 <= i < |dims| && dims[i].name == Str(x))
    ensures r.Err? ==> r.error == KeyErrorText && exists i :: 0 <= i < |dims| && dims[i].name.Missing?
    ensures |dims| > 0 && r.Ok? && r.value.status == Fail ==>
      var missing := MissingNames(dims, RequiredDimensions);
      missing.Ok? && |missing.value| > 0
      && r.value.message == "Missing required dimensions: " + Join(", ", missing.value)
  {
    if |dims| == 0 then Ok(AnalysisResult(Fail, "No dimensions found in the Explore", NoDetails))
    else match MissingNames(dims, RequiredDimensions)
      case Err(e) => Err(e)
      case Ok(missing) =>
        if |missing| > 0 then
          assert missing[0] in missing;
          Ok(AnalysisResult(Fail, "Missing required dimensions: " + Join(", ", missing), NoDetails))
        else Ok(AnalysisResult(Pass, "All required dimensions are present", Count("dimension_count", |dims|)))
  }

  // ---------------------------------------------------------------------------
  // analyze_measures

  /** A measure name that covers a basic metric: its lower-case form mentions "count",
      "sum" or "average". */
  predicate IsBasicMetric(name: string) {
    Contains(Lower(name), "count") || Contains(Lower(name), "sum") || Contains(Lower(name), "average")
  }

  /** A measure that is counted towards coverage. */
  predicate CoversMetric(m: Field) {
    m.name.Str? && IsBasicMetric(m.name.s)
  }

  /** `sum(1 for m in measures if any(bm in m['name'].lower() ...))`: the number of measures
      covering a basic metric; the first measure without a string name raises. */
  function MetricCoverage(measures: seq<Field>): (r: Result<nat>)
    ensures r.Ok? <==> forall i :: 0 <= i < |measures| ==> measures[i].name.Str?
    ensures r.Ok? ==> r.value == Sections.CountWhere(measures, CoversMetric) <= |measures|
    decreases |measures|
  {
    if |measures| == 0 then Ok(0)
    else match measures[0].name
      case Missing => Err(KeyErrorText)
      case NonString(t) => Err(AttributeErrorText(t))
      case Str(s) =>
        match MetricCoverage(measures[1..])
        case Err(e) =>
          assert forall i :: 1 <= i < |measures| ==> measures[i] == measures[1..][i - 1];
          Err(e)
        case Ok(c) =>
          assert forall i :: 1 <= i < |measures| ==> measures[i] == measures[1..][i - 1];
          Ok((if IsBasicMetric(s) then 1 else 0) + c)
  }

  /** `analyze_measures`; `Err` is the exception it raises. */
  function AnalyzeMeasures(measures: seq<Field>): (r: Result<AnalysisResult>)
    ensures |measures| == 0 ==> r == Ok(AnalysisResult(Warning, "No measures found in the Explore", NoDetails))
    ensures r.Ok? ==> r.value.status != Fail
    ensures r.Err? <==> |measures| > 0 && exists i :: 0 <= i < |measures| && !measures[i].name.Str?
    ensures r.Ok? ==> (r.value.status == Pass <==> Sections.CountWhere(measures, CoversMetric) >= 2)
    ensures r.Ok? && r.value.status == Pass ==> r.value.details == Count("measure_count", |measures|)
  {
    if |measures| == 0 then Ok(AnalysisResult(Warning, "No measures found in the Explore", NoDetails))
    else match MetricCoverage(measures)
      case Err(e) => Err(e)
      case Ok(coverage) =>
        if coverage < 2 then Ok(AnalysisResult(Warning, "Limited metric coverage detected", NoDetails))
        else Ok(AnalysisResult(Pass, "Sufficient measure coverage", Count("measure_count", |measures|)))
  }

  // ---------------------------------------------------------------------------
  // analyze_joins

  /** `analyze_joins`: WARNING without joins or without a left outer join, else PASS. */
  function AnalyzeJoins(joins: seq<JoinInfo>): (r: AnalysisResult)
    ensures r.status != Fail
    ensures r.status == Pass <==> exists i :: 0 <= i < |joins| && joins[i].joinType == "left_outer"
    ensures r.status == Pass ==> r.details == Count("join_count", |joins|)
  {
    if |joins| == 0 then AnalysisResult(Warning, "No joins defined in the Explore", NoDetails)
    else if !(exists i :: 0 <= i < |joins| && joins[i].joinType == "left_outer") then
      AnalysisResult(Warning, "No primary left outer join detected", NoDetails)
    else AnalysisResult(Pass, "Join structure appears valid", Count("join_count", |joins|))
  }

  // ---------------------------------------------------------------------------
  // analyze_time_dimensions

  predicate IsTimeDimension(d: Field) {
    d.fieldType == "time"
  }

  /** `analyze_time_dimensions`: FAIL exactly when no dimension has type "time"; otherwise
      PASS with the number of time dimensions. */
  function AnalyzeTimeDimensions(dims: seq<Field>): (r: AnalysisResult)
    ensures r.status != Warning
    ensures r.status == Fail <==> forall i :: 0 <= i < |dims| ==> !IsTimeDimension(dims[i])
    ensures r.status == Pass ==>
      r.details == Count("time_dimension_count", Sections.CountWhere(dims, IsTimeDimension))
  {
    var timeDimensions := Sections.FilterBy(dims, IsTimeDimension);
    if |timeDimensions| == 0 then
      forall i | 0 <= i < |dims| ensures !IsTimeDimension(dims[i]) {
        if IsTimeDimension(dims[i]) { Sections.FilterKeeps(dims, IsTimeDimension, dims[i]); }
      }
      AnalysisResult(Fail, "No time dimensions found", NoDetails)
    else
      Sections.SubsequenceElements(timeDimensions, dims);
      assert timeDimensions[0] in dims;
      AnalysisResult(Pass, "Time dimensions present", Count("time_dimension_count", |timeDimensions|))
  }

  // ---------------------------------------------------------------------------
  // run_analysis

  /** The aspects, in the order `run_analysis` checks them. */
  const Aspects: seq<string> := ["dimensions", "measures", "joins", "time_dimensions"]

  /** The check of one aspect; `Err` is the exception it raises. */
  function Check(aspect: string, explore: ExploreData): Result<AnalysisResult>
  {
    if aspect == "dimensions" then AnalyzeDimensions(explore.dimensions)
    else if aspect == "measures" then AnalyzeMeasures(explore.measures)
    else if aspect == "joins" then Ok(AnalyzeJoins(explore.joins))
    else Ok(AnalyzeTimeDimensions(explore.dimensions))
  }

  /** What `run_analysis` records for one aspect: the check's result, or FAIL with the
      exception's text when the check raises. */
  function Outcome(aspect: string, explore: ExploreData): (r: AnalysisResult)
    ensures Check(aspect, explore).Err? ==>
      r == AnalysisResult(Fail, "Error during analysis: " + Check(aspect, explore).error, NoDetails)
    ensures Check(aspect, explore).Ok? ==> r == Check(aspect, explore).value
  {
    match Check(aspect, explore)
    case Ok(result) => result
    case Err(e) => AnalysisResult(Fail, "Error during analysis: " + e, NoDetails)
  }

  /** The results of the first `n` aspects. */
  function OutcomesUpTo(explore: ExploreData, n: nat): (m: map<string, AnalysisResult>)
    requires n <= |Aspects|
    ensures m.Keys == set a | a in Aspects[..n]
    ensures forall a :: a in m ==> m[a] == Outcome(a, explore)
  {
    map a | a in Aspects[..n] :: Outcome(a, explore)
  }

  /** Checking one more aspect records its outcome on top of the earlier ones. */
  lemma OutcomesStep(explore: ExploreData, i: nat)
    requires i < |Aspects|
    ensures OutcomesUpTo(explore, i + 1) == OutcomesUpTo(explore, i)[Aspects[i] := Outcome(Aspects[i], explore)]
  {
    assert Aspects[..i + 1] == Aspects[..i] + [Aspects[i]];
    MapsEqual(OutcomesUpTo(explore, i + 1), OutcomesUpTo(explore, i)[Aspects[i] := Outcome(Aspects[i], explore)]);
  }

  /** Updating an override map updates its second map. */
  lemma UpdateOverride<K, V>(a: map<K, V>, b: map<K, V>, k: K, v: V)
    ensures (a + b)[k := v] == a + b[k := v]
  {
    MapsEqual((a + b)[k := v], a + b[k := v]);
  }

  /** The results `run_analysis` records: one per aspect. */
  function AllOutcomes(explore: ExploreData): (m: map<string, AnalysisResult>)
    ensures m.Keys == {"dimensions", "measures", "joins", "time_dimensions"}
    ensures forall a :: a in m ==> m[a] == Outcome(a, explore)
  {
    assert Aspects[..|Aspects|] == Aspects;
    OutcomesUpTo(explore, |Aspects|)
  }

  // ---------------------------------------------------------------------------
  // get_summary

  /** The dictionary `get_summary` returns. */
  datatype Summary = Summary(total: nat, passed: nat, failed: nat, warning: int, overall: Status,
                             details: map<string, (Status, string)>)

  /** The aspects whose result has status `s`. */
  function WithStatus(results: map<string, AnalysisResult>, s: Status): (r: set<string>)
    ensures r <= results.Keys
    ensures forall k :: k in r <==> k in results && results[k].status == s
  {
    set k | k in results && results[k].status == s
  }

  /** The summary of a results map. */
  function SummaryOf(results: map<string, AnalysisResult>): (r: Summary)
    ensures r.total == |results|
    ensures r.passed == |WithStatus(results, Pass)| && r.failed == |WithStatus(results, Fail)|
    ensures r.details.Keys == results.Keys
    ensures forall k :: k in results ==> r.details[k] == (results[k].status, results[k].message)
  {
    var total := |results|;
    var passed := |WithStatus(results, Pass)|;
    var failed := |WithStatus(results, Fail)|;
    Summary(total, passed, failed, total - passed - failed,
            if failed == 0 then Pass else Fail,
            map k | k in results :: (results[k].status, results[k].message))
  }

  /** The counts partition the aspects: the warnings are exactly the aspects with status
      WARNING, so none of the counts is negative and they add up to the total; and the
      overall status is PASS exactly when no aspect failed. */
  lemma SummaryCounts(results: map<string, AnalysisResult>)
    ensures var s := SummaryOf(results);
      && s.warning == |WithStatus(results, Warning)|
      && s.passed + s.failed + s.warning == s.total
      && (s.overall == Pass <==> forall k :: k in results ==> results[k].status != Fail)
      && (s.overall == Pass || s.overall == Fail)
  {
    var p, f, w := WithStatus(results, Pass), WithStatus(results, Fail), WithStatus(results, Warning);
    assert results.Keys == p + f + w;
    assert p * f == {} && (p + f) * w == {};
    assert |p + f| == |p| + |f|;
    assert |p + f + w| == |p + f| + |w|;
    if |f| == 0 {
      assert f == {};
    } else {
      var k :| k in f;
    }
  }

  /** Maps with the same keys and the same value under each key are equal. */
  lemma MapsEqual<K, V>(a: map<K, V>, b: map<K, V>)
    requires forall k :: k in a <==> k in b
    requires forall k :: k in a ==> a[k] == b[k]
    ensures a == b
  {
  }

  // ---------------------------------------------------------------------------
  // The analyzer object.

  /** `ConversationAnalyticsAnalyzer`: the explore it analyzes and the results it has
      recorded, by aspect. */
  class Analyzer {
    const explore: ExploreData
    var results: map<string, AnalysisResult>

    /** `__init__`: no results yet. */
    constructor(explore: ExploreData)
      ensures this.explore == explore && results == map[]
    {
      this.explore := explore;
      results := map[];
    }

    /** `run_analysis`: runs the four checks in order and records each one's outcome under
        its aspect, replacing an earlier entry; other entries are kept. */
    method RunAnalysis() returns (r: map<string, AnalysisResult>)
      modifies this
      ensures results == old(results) + AllOutcomes(explore)
      ensures r == results
    {
      ghost var before := results;
      for i := 0 to |Aspects|
        invariant results == before + OutcomesUpTo(explore, i)
      {
        var aspect := Aspects[i];
        Record(aspect);
        OutcomesStep(explore, i);
        UpdateOverride(before, OutcomesUpTo(explore, i), aspect, Outcome(aspect, explore));
      }
      r := results;
    }

    /** One step of `run_analysis`: the check of `aspect` inside its `try`, recording the
        result, or FAIL with the exception's text. */
    method Record(aspect: string)
      modifies this
      ensures results == old(results)[aspect := Outcome(aspect, explore)]
    {
      var outcome := Check(aspect, explore);
      match outcome {
        case Ok(result) =>
          results := results[aspect := result];
        case Err(e) =>
          results := results[aspect := AnalysisResult(Fail, "Error during analysis: " + e, NoDetails)];
      }
    }

    /** `get_summary`: runs the analysis only when nothing is recorded yet, then summarizes
        the recorded results. */
    method GetSummary() returns (s: Summary)
      modifies this
      ensures old(results) == map[] ==> results == AllOutcomes(explore)
      ensures old(results) != map[] ==> results == old(results)
      ensures s == SummaryOf(results)
    {
      if results == map[] {
        var _ := RunAnalysis();
        assert map[] + AllOutcomes(explore) == AllOutcomes(explore);
      }
      s := SummaryOf(results);
    }
  }

  /** After one summary the analysis is recorded, so a second summary neither runs the
      checks again nor changes the results, and reports the same. */
  method SummaryTwice(a: Analyzer) returns (first: Summary, second: Summary)
    modifies a
    ensures first == second
    ensures old(a.results) == map[] ==> a.results == AllOutcomes(a.explore)
    ensures old(a.results) != map[] ==> a.results == old(a.results)
  {
    first := a.GetSummary();
    assert a.results != map[] by {
      if old(a.results) == map[] {
        assert "dimensions" in a.results;
      }
    }
    second := a.GetSummary();
  }
}
