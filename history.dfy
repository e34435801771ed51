/** Field-usage scoring from query-history records (`fetch_and_process_history` after
    the history query has returned).  Scores are counted in half-units: every source
    weight is a multiple of 0.5, so `2 * run_count * user_count * weight` is an integer. */
module History {

  // ---------------------------------------------------------------------------
  // Data model.

  /** One entry of a parsed field list: a JSON string, or any other JSON value. */
  datatype Item = Text(s: string) | NonText

  /** The `query.fields` value after `json.loads`: it failed, it is not a list, or a list. */
  datatype FieldList = Unparseable | NotAList | Items(items: seq<Item>)

  /** One history row.  Absent or null strings are "", an absent count is 0. */
  datatype Record = Record(
    model: string,       // query.model
    explore: string,     // query.view
    fields: FieldList,   // query.fields
    source: string,      // history.source
    runCount: int,       // history.query_run_count
    userCount: int)      // user.count

  /** A field and its accumulated score, in half-units. */
  datatype FieldScore = FieldScore(name: string, score: int)

  /** The scores of one explore: a Python dict, so its entries keep insertion order. */
  type ExploreScores = seq<FieldScore>

  /** model -> explore -> field -> score. */
  type UsageScores = map<string, map<string, ExploreScores>>

  /** SOURCE_WEIGHTS, in half-units. */
  const SourceWeights: map<string, nat> := map[
    "explore" := 6, "drill_modal" := 6, "suggest" := 4, "merge_query" := 4,
    "api" := 3, "sql_runner" := 6, "dashboard" := 2, "look" := 2,
    "scheduled_task" := 1, "cache" := 0, "embed" := 2]

  /** DEFAULT_WEIGHT (0.5), in half-units. */
  const DefaultWeight: nat := 1

  /** The weight of a source: its entry in the table, or the default when the source
      is empty or unknown. */
  function Weight(source: string): nat {
    if source != "" && source in SourceWeights then SourceWeights[source] else DefaultWeight
  }

  /** A record is used when it names a model and an explore, both counts are non-zero,
      and its field list parsed to a list. */
  predicate IsValid(r: Record) {
    r.model != "" && r.explore != "" && r.runCount != 0 && r.userCount != 0 && r.fields.Items?
  }

  /** run_count * user_count * weight, in half-units. */
  function QueryScore(r: Record): int {
    r.runCount * r.userCount * Weight(r.source)
  }

  // ---------------------------------------------------------------------------
  // The scores of one explore as an insertion-ordered dictionary.

  /** The keys of the dictionary, in order. */
  function Names(fs: ExploreScores): (r: seq<string>)
    ensures |r| == |fs|
    ensures forall i :: 0 <= i < |fs| ==> r[i] == fs[i].name
  {
    if |fs| == 0 then [] else [fs[0].name] + Names(fs[1..])
  }

  predicate UniqueNames(fs: ExploreScores) {
    forall i, j :: 0 <= i < j < |fs| ==> fs[i].name != fs[j].name
  }

  /** `fs.get(f, 0)`. */
  function ScoreOf(fs: ExploreScores, f: string): int {
    if |fs| == 0 then 0
    else if fs[0].name == f then fs[0].score
    else ScoreOf(fs[1..], f)
  }

  /** `fs[f] += q` on a defaultdict(float): an existing entry is updated where it stands,
      a new one is appended. */
  function Bump(fs: ExploreScores, f: string, q: int): ExploreScores
  {
    if |fs| == 0 then [FieldScore(f, q)]
    else if fs[0].name == f then [FieldScore(f, fs[0].score + q)] + fs[1..]
    else [fs[0]] + Bump(fs[1..], f, q)
  }

  /** Bumping `f` adds `q` to its score and changes no other score. */
  lemma {:induction false} BumpScore(fs: ExploreScores, f: string, q: int, g: string)
    ensures ScoreOf(Bump(fs, f, q), g) == ScoreOf(fs, g) + (if g == f then q else 0)
  {
    if |fs| > 0 && fs[0].name != f {
      BumpScore(fs[1..], f, q, g);
      assert Bump(fs, f, q)[1..] == Bump(fs[1..], f, q);
    }
  }

  /** Bumping keeps the order of the existing fields and appends `f` when it is new. */
  lemma {:induction false} BumpNames(fs: ExploreScores, f: string, q: int)
    ensures Names(Bump(fs, f, q)) == if f in Names(fs) then Names(fs) else Names(fs) + [f]
  {
    if |fs| > 0 {
      if fs[0].name != f {
        BumpNames(fs[1..], f, q);
        var rest := Bump(fs[1..], f, q);
        assert Names([fs[0]] + rest) == [fs[0].name] + Names(rest);
      } else {
        assert Names(Bump(fs, f, q)) == [f] + Names(fs[1..]);
      }
    }
  }

  /** Bumping never creates a second entry for a field. */
  lemma BumpUnique(fs: ExploreScores, f: string, q: int)
    requires UniqueNames(fs)
    ensures UniqueNames(Bump(fs, f, q))
  {
    var r := Bump(fs, f, q);
    BumpNames(fs, f, q);
    assert forall i :: 0 <= i < |r| ==> r[i].name == Names(r)[i];
    assert forall i :: 0 <= i < |fs| ==> fs[i].name == Names(fs)[i];
  }

  // ---------------------------------------------------------------------------
  // The nested dictionary.

  /** `usage_scores.get(model, {}).get(explore, {})`. */
  function ScoresOf(s: UsageScores, model: string, explore: string): ExploreScores {
    if model in s && explore in s[model] then s[model][explore] else []
  }

  /** `usage_scores[model][explore][field] += q`, creating the missing levels. */
  function Credit(s: UsageScores, model: string, explore: string, field: string, q: int): UsageScores {
    var byExplore := if model in s then s[model] else map[];
    s[model := byExplore[explore := Bump(ScoresOf(s, model, explore), field, q)]]
  }

  /** Crediting touches exactly one explore's scores. */
  lemma CreditScoresOf(s: UsageScores, model: string, explore: string, field: string, q: int, m: string, e: string)
    ensures ScoresOf(Credit(s, model, explore, field, q), m, e)
         == if m == model && e == explore then Bump(ScoresOf(s, m, e), field, q) else ScoresOf(s, m, e)
  {
  }

  /** Credit one entry of a field list: only non-empty strings count. */
  function CreditItem(s: UsageScores, model: string, explore: string, it: Item, q: int): UsageScores {
    if it.Text? && it.s != "" then Credit(s, model, explore, it.s, q) else s
  }

  /** Credit every entry of a field list, in order. */
  function AddItems(s: UsageScores, model: string, explore: string, items: seq<Item>, q: int): UsageScores
    decreases |items|
  {
    if |items| == 0 then s
    else CreditItem(AddItems(s, model, explore, items[..|items| - 1], q), model, explore, items[|items| - 1], q)
  }

  /** The effect of one record: nothing when it is skipped. */
  function AddRecord(s: UsageScores, r: Record): UsageScores {
    if IsValid(r) then AddItems(s, r.model, r.explore, r.fields.items, QueryScore(r)) else s
  }

  /** The scores after processing `rs` in order, starting from an empty dictionary. */
  function Aggregate(rs: seq<Record>): UsageScores
    decreases |rs|
  {
    if |rs| == 0 then map[] else AddRecord(Aggregate(rs[..|rs| - 1]), rs[|rs| - 1])
  }

  /** The number of skipped records. */
  function CountSkipped(rs: seq<Record>): nat
    decreases |rs|
  {
    if |rs| == 0 then 0
    else CountSkipped(rs[..|rs| - 1]) + (if IsValid(rs[|rs| - 1]) then 0 else 1)
  }

  // ---------------------------------------------------------------------------
  // The loop of the source.

  /** The record loop: returns the nested scores, the number of records processed and
      the number of records skipped. */
  method ProcessHistory(records: seq<Record>) returns (scores: UsageScores, processed: nat, skipped: nat)
    ensures scores == Aggregate(records)
    ensures processed == |records|
    ensures skipped == CountSkipped(records)
  {
    scores := map[];
    processed, skipped := 0, 0;
    var i := 0;
    while i < |records|
      invariant 0 <= i <= |records|
      invariant scores == Aggregate(records[..i])
      invariant processed == i
      invariant skipped == CountSkipped(records[..i])
    {
      var r := records[i];
      assert records[..i + 1][..i] == records[..i];
      processed := processed + 1;
      if r.model == "" || r.explore == "" || r.runCount == 0 || r.userCount == 0 {
        skipped := skipped + 1;
      } else if !r.fields.Items? {
        skipped := skipped + 1;
      } else {
        var weight := if r.source != "" && r.source in SourceWeights then SourceWeights[r.source] else DefaultWeight;
        var q := r.runCount * r.userCount * weight;
        var items := r.fields.items;
        ghost var before := scores;
        var j := 0;
        while j < |items|
          invariant 0 <= j <= |items|
          invariant scores == AddItems(before, r.model, r.explore, items[..j], q)
        {
          assert items[..j + 1][..j] == items[..j];
          var it := items[j];
          if it.Text? && it.s != "" {
            var byExplore := if r.model in scores then scores[r.model] else map[];
            var fs := if r.explore in byExplore then byExplore[r.explore] else [];
            scores := scores[r.model := byExplore[r.explore := Bump(fs, it.s, q)]];
          }
          j := j + 1;
        }
        assert items[..|items|] == items;
      }
      i := i + 1;
    }
    assert records[..|records|] == records;
  }

  // ---------------------------------------------------------------------------
  // What the scores mean.

  /** How often the non-empty string `f` is listed in a field list. */
  function Occurrences(items: seq<Item>, f: string): nat
    decreases |items|
  {
    if |items| == 0 then 0
    else Occurrences(items[..|items| - 1], f) + (if items[|items| - 1] == Text(f) && f != "" then 1 else 0)
  }

  /** What one record adds to the score of `f` under `model`/`explore`. */
  function Contribution(r: Record, model: string, explore: string, f: string): int {
    if IsValid(r) && r.model == model && r.explore == explore then ItemsCredit(r.fields.items, f, QueryScore(r))
    else 0
  }

  /** The sum of the contributions of all records. */
  function TotalContribution(rs: seq<Record>, model: string, explore: string, f: string): int
    decreases |rs|
  {
    if |rs| == 0 then 0
    else TotalContribution(rs[..|rs| - 1], model, explore, f) + Contribution(rs[|rs| - 1], model, explore, f)
  }

  /** What a field list credits to `f` when every listed occurrence is worth `q`. */
  function ItemsCredit(items: seq<Item>, f: string, q: int): int
    decreases |items|
  {
    if |items| == 0 then 0
    else ItemsCredit(items[..|items| - 1], f, q) + (if items[|items| - 1] == Text(f) && f != "" then q else 0)
  }

  /** A field listed k times in one record is credited k times. */
  lemma {:induction false} ItemsCreditIsProduct(items: seq<Item>, f: string, q: int)
    ensures ItemsCredit(items, f, q) == q * Occurrences(items, f)
    decreases |items|
  {
    if |items| > 0 {
      ItemsCreditIsProduct(items[..|items| - 1], f, q);
      var k := Occurrences(items[..|items| - 1], f);
      assert q * (k + 1) == q * k + q;
    }
  }

  lemma {:induction false} AddItemsScore(s: UsageScores, model: string, explore: string, items: seq<Item>, q: int,
                                         m: string, e: string, f: string)
    ensures ScoreOf(ScoresOf(AddItems(s, model, explore, items, q), m, e), f)
         == ScoreOf(ScoresOf(s, m, e), f) + (if m == model && e == explore then ItemsCredit(items, f, q) else 0)
    decreases |items|
  {
    if |items| > 0 {
      var init := items[..|items| - 1];
      var last := items[|items| - 1];
      var s' := AddItems(s, model, explore, init, q);
      assert AddItems(s, model, explore, items, q) == CreditItem(s', model, explore, last, q);
      AddItemsScore(s, model, explore, init, q, m, e, f);
      if last.Text? && last.s != "" {
        CreditScoresOf(s', model, explore, last.s, q, m, e);
        if m == model && e == explore {
          BumpScore(ScoresOf(s', m, e), last.s, q, f);
        }
      }
    }
  }

  /** The score of a field is the sum over all records of run_count * user_count * weight
      times the number of times the record lists the field, counting only used records
      of that model and explore. */
  lemma {:induction false} AggregateScore(rs: seq<Record>, model: string, explore: string, f: string)
    ensures ScoreOf(ScoresOf(Aggregate(rs), model, explore), f) == TotalContribution(rs, model, explore, f)
    decreases |rs|
  {
    if |rs| > 0 {
      var r := rs[|rs| - 1];
      AggregateScore(rs[..|rs| - 1], model, explore, f);
      if IsValid(r) {
        AddItemsScore(Aggregate(rs[..|rs| - 1]), r.model, r.explore, r.fields.items, QueryScore(r), model, explore, f);
      }
    }
  }

  /** A skipped record, wherever it stands, changes nothing. */
  lemma {:induction false} SkippedRecordIgnored(rs: seq<Record>, r: Record, more: seq<Record>)
    requires !IsValid(r)
    ensures Aggregate(rs + [r] + more) == Aggregate(rs + more)
    decreases |more|
  {
    if |more| == 0 {
      assert (rs + [r])[..|rs|] == rs;
      assert rs + [r] + more == rs + [r];
      assert rs + more == rs;
    } else {
      var init := more[..|more| - 1];
      SkippedRecordIgnored(rs, r, init);
      assert (rs + [r] + more)[..|rs + [r] + more| - 1] == rs + [r] + init;
      assert (rs + more)[..|rs + more| - 1] == rs + init;
    }
  }

  /** Every listed entry of a used record that is a non-empty string ends up with a key. */
  predicate Lists(r: Record, model: string, explore: string, f: string) {
    IsValid(r) && r.model == model && r.explore == explore && f != "" && Text(f) in r.fields.items
  }

  lemma {:induction false} AddItemsNamesGrow(s: UsageScores, model: string, explore: string, items: seq<Item>, q: int,
                                             m: string, e: string)
    ensures Names(ScoresOf(s, m, e)) <= Names(ScoresOf(AddItems(s, model, explore, items, q), m, e))
    decreases |items|
  {
    if |items| > 0 {
      var init := items[..|items| - 1];
      var last := items[|items| - 1];
      AddItemsNamesGrow(s, model, explore, init, q, m, e);
      var s' := AddItems(s, model, explore, init, q);
      assert AddItems(s, model, explore, items, q) == CreditItem(s', model, explore, last, q);
      if last.Text? && last.s != "" {
        CreditScoresOf(s', model, explore, last.s, q, m, e);
        BumpNames(ScoresOf(s', model, explore), last.s, q);
      }
    }
  }

  lemma {:induction false} AddItemsNamesHave(s: UsageScores, model: string, explore: string, items: seq<Item>, q: int,
                                             m: string, e: string, f: string)
    ensures f in Names(ScoresOf(AddItems(s, model, explore, items, q), m, e))
        <==> f in Names(ScoresOf(s, m, e)) || (m == model && e == explore && f != "" && Text(f) in items)
    decreases |items|
  {
    if |items| > 0 {
      var init := items[..|items| - 1];
      var last := items[|items| - 1];
      AddItemsNamesHave(s, model, explore, init, q, m, e, f);
      CreditItemNames(AddItems(s, model, explore, init, q), model, explore, last, q, m, e, f);
      assert items == init + [last];
    }
  }

  /** Crediting one entry adds its field to that explore's names and nothing else. */
  lemma CreditItemNames(s: UsageScores, model: string, explore: string, it: Item, q: int,
                        m: string, e: string, f: string)
    ensures f in Names(ScoresOf(CreditItem(s, model, explore, it, q), m, e))
        <==> f in Names(ScoresOf(s, m, e)) || (m == model && e == explore && f != "" && it == Text(f))
  {
    if it.Text? && it.s != "" {
      CreditScoresOf(s, model, explore, it.s, q, m, e);
      BumpNames(ScoresOf(s, model, explore), it.s, q);
    }
  }

  /** Processing more records only appends fields to an explore's scores: the fields
      stand in the order in which they were first credited. */
  lemma {:induction false} AggregateNamesGrow(rs: seq<Record>, more: seq<Record>, model: string, explore: string)
    ensures Names(ScoresOf(Aggregate(rs), model, explore)) <= Names(ScoresOf(Aggregate(rs + more), model, explore))
    decreases |more|
  {
    if |more| == 0 {
      assert rs + more == rs;
    } else {
      var init := more[..|more| - 1];
      var r := more[|more| - 1];
      AggregateNamesGrow(rs, init, model, explore);
      assert (rs + more)[..|rs + more| - 1] == rs + init;
      if IsValid(r) {
        AddItemsNamesGrow(Aggregate(rs + init), r.model, r.explore, r.fields.items, QueryScore(r), model, explore);
      }
    }
  }

  /** The fields of an explore are exactly the non-empty strings listed by its used
      records; a field whose total is 0 (from the "cache" source, say) is still there. */
  lemma {:induction false} AggregateNamesHave(rs: seq<Record>, model: string, explore: string, f: string)
    ensures f in Names(ScoresOf(Aggregate(rs), model, explore))
        <==> exists i :: 0 <= i < |rs| && Lists(rs[i], model, explore, f)
    decreases |rs|
  {
    if |rs| > 0 {
      var init := rs[..|rs| - 1];
      var r := rs[|rs| - 1];
      AggregateNamesHave(init, model, explore, f);
      if IsValid(r) {
        AddItemsNamesHave(Aggregate(init), r.model, r.explore, r.fields.items, QueryScore(r), model, explore, f);
      }
      ListsLast(init, r, model, explore, f);
      assert rs == init + [r];
    }
  }

  /** Some record of `init + [r]` lists `f` when `r` does or a record of `init` does. */
  lemma ListsLast(init: seq<Record>, r: Record, model: string, explore: string, f: string)
    ensures (exists i :: 0 <= i < |init + [r]| && Lists((init + [r])[i], model, explore, f))
        <==> (exists i :: 0 <= i < |init| && Lists(init[i], model, explore, f)) || Lists(r, model, explore, f)
  {
    var rs := init + [r];
    if exists i :: 0 <= i < |rs| && Lists(rs[i], model, explore, f) {
      var i :| 0 <= i < |rs| && Lists(rs[i], model, explore, f);
      if i < |init| { assert Lists(init[i], model, explore, f); }
    }
    if exists i :: 0 <= i < |init| && Lists(init[i], model, explore, f) {
      var i :| 0 <= i < |init| && Lists(init[i], model, explore, f);
      assert Lists(rs[i], model, explore, f);
    }
    assert rs[|init|] == r;
  }

  /** No field appears twice within one explore's scores. */
  predicate WellFormed(s: UsageScores) {
    forall m, e :: m in s && e in s[m] ==> UniqueNames(s[m][e])
  }

  lemma {:induction false} AddItemsWellFormed(s: UsageScores, model: string, explore: string, items: seq<Item>, q: int)
    requires WellFormed(s)
    ensures WellFormed(AddItems(s, model, explore, items, q))
    decreases |items|
  {
    if |items| > 0 {
      var init := items[..|items| - 1];
      var last := items[|items| - 1];
      AddItemsWellFormed(s, model, explore, init, q);
      var s' := AddItems(s, model, explore, init, q);
      if last.Text? && last.s != "" {
        BumpUnique(ScoresOf(s', model, explore), last.s, q);
      }
    }
  }

  lemma {:induction false} AggregateWellFormed(rs: seq<Record>)
    ensures WellFormed(Aggregate(rs))
    decreases |rs|
  {
    if |rs| > 0 {
      var r := rs[|rs| - 1];
      AggregateWellFormed(rs[..|rs| - 1]);
      if IsValid(r) {
        AddItemsWellFormed(Aggregate(rs[..|rs| - 1]), r.model, r.explore, r.fields.items, QueryScore(r));
      }
    }
  }

  /** The used records of `rs`, in order. */
  function UsedRecords(rs: seq<Record>): (r: seq<Record>)
    ensures forall i :: 0 <= i < |r| ==> IsValid(r[i])
    decreases |rs|
  {
    if |rs| == 0 then []
    else UsedRecords(rs[..|rs| - 1]) + (if IsValid(rs[|rs| - 1]) then [rs[|rs| - 1]] else [])
  }

  /** Every record is either used or counted as skipped, and the scores depend on the
      used records alone. */
  lemma {:induction false} SkippedAndUsed(rs: seq<Record>)
    ensures CountSkipped(rs) + |UsedRecords(rs)| == |rs|
    ensures Aggregate(rs) == Aggregate(UsedRecords(rs))
    decreases |rs|
  {
    if |rs| > 0 {
      var init := rs[..|rs| - 1];
      var r := rs[|rs| - 1];
      SkippedAndUsed(init);
      assert rs[..|rs| - 1] == init;
      if IsValid(r) {
        var u := UsedRecords(init) + [r];
        assert UsedRecords(rs) == u;
        assert u[..|u| - 1] == UsedRecords(init);
        assert Aggregate(u) == AddRecord(Aggregate(UsedRecords(init)), r);
        assert Aggregate(rs) == AddRecord(Aggregate(init), r);
      } else {
        assert UsedRecords(rs) == UsedRecords(init);
      }
    }
  }
}
