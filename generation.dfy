/** The string producers of the analyzer: `generate_synonyms`, which proposes synonyms for
    a field from the words of its name and label, `generate_agent_instructions`, which
    lists the agent instructions of a Conversational Analytics explore, and
    `generate_ca_lookml_file_content`, which writes the LookML file that extends the
    explore's views and the explore itself for Conversational Analytics. */
module Generation {
  import opened Strings
  import opened Wrappers
  import History
  import Sections

  // ---------------------------------------------------------------------------
  // Synonyms (`generate_synonyms`).

  /** The words of a field name that never become synonyms (compared with their case). */
  const StopWords: seq<string> :=
    ["id", "pk", "fk", "key", "date", "time", "ts", "at", "count", "sum", "avg", "min", "max", "p50", "p90", "p99"]

  /** A word of the field name is kept when it is longer than two characters and is not,
      as written, a stop word. */
  predicate KeepsFieldWord(w: string) {
    |w| > 2 && w !in StopWords
  }

  /** `y` comes from a kept word of the field name, split at underscores, lowered. */
  predicate FieldSynonym(fieldPart: string, y: string) {
    var words := Split(fieldPart, '_');
    exists k :: 0 <= k < |words| && KeepsFieldWord(words[k]) && y == Lower(words[k])
  }

  /** `y` comes from a word of a non-empty label, split at spaces, reduced to its word
      characters, longer than two characters, lowered. */
  predicate LabelSynonym(labelText: string, y: string) {
    var words := Split(labelText, ' ');
    labelText != "" && exists k :: 0 <= k < |words| && |KeepWordChars(words[k])| > 2 && y == Lower(KeepWordChars(words[k]))
  }

  /** The set of synonyms `generate_synonyms` collects. */
  predicate IsSynonym(fieldPart: string, labelText: string, y: string) {
    FieldSynonym(fieldPart, y) || LabelSynonym(labelText, y)
  }

  /** Ascending with no repeats: the shape of `sorted(list(a_set))`. */
  predicate StrictlySorted(s: seq<string>) {
    forall i, j :: 0 <= i < j < |s| ==> Less(s[i], s[j])
  }

  /** Insert `x` into a strictly sorted list, unless it is already there. */
  function InsertSorted(x: string, s: seq<string>): (r: seq<string>)
    requires StrictlySorted(s)
    ensures StrictlySorted(r)
    ensures forall y :: y in r <==> y == x || y in s
  {
    if |s| == 0 then [x]
    else if x == s[0] then s
    else if Less(x, s[0]) then
      forall j | 0 <= j < |s| ensures Less(x, s[j]) {
        if j > 0 { LessTransitive(x, s[0], s[j]); }
      }
      [x] + s
    else
      LessTotal(x, s[0]);
      var rest := InsertSorted(x, s[1..]);
      forall j | 0 <= j < |rest| ensures Less(s[0], rest[j]) {
        assert rest[j] in rest;
      }
      assert s == [s[0]] + s[1..];
      [s[0]] + rest
  }

  /** `generate_synonyms(field_part, label)`: the synonyms, sorted ascending, each once. */
  method GenerateSynonyms(fieldPart: string, labelText: string) returns (r: seq<string>)
    ensures StrictlySorted(r)
    ensures forall y :: y in r <==> IsSynonym(fieldPart, labelText, y)
  {
    var words := FieldWords(fieldPart);
    if labelText != "" {
      words := AddLabelWords(words, labelText);
    }
    r := SortedList(words);
  }

  /** The first loop of `generate_synonyms`: the kept words of the field name, lowered. */
  method FieldWords(fieldPart: string) returns (words: set<string>)
    ensures forall y :: y in words <==> FieldSynonym(fieldPart, y)
  {
    words := {};
    var parts := Split(fieldPart, '_');
    for i := 0 to |parts|
      invariant forall y :: y in words <==>
        exists k :: 0 <= k < i && KeepsFieldWord(parts[k]) && y == Lower(parts[k])
    {
      var word := parts[i];
      if |word| > 2 && word !in StopWords {
        words := words + {Lower(word)};
      }
    }
  }

  /** The second loop of `generate_synonyms`: adds the cleaned words of a non-empty label. */
  method AddLabelWords(start: set<string>, labelText: string) returns (words: set<string>)
    requires labelText != ""
    ensures forall y :: y in words <==> y in start || LabelSynonym(labelText, y)
  {
    words := start;
    var labelParts := Split(labelText, ' ');
    for i := 0 to |labelParts|
      invariant forall y :: y in words <==> (y in start ||
        exists k :: 0 <= k < i && |KeepWordChars(labelParts[k])| > 2 && y == Lower(KeepWordChars(labelParts[k])))
    {
      var cleaned := KeepWordChars(labelParts[i]);
      if |cleaned| > 2 {
        words := words + {Lower(cleaned)};
      }
    }
  }

  /** `sorted(list(words))`: the elements of the set, ascending, each once. */
  method SortedList(words: set<string>) returns (r: seq<string>)
    ensures StrictlySorted(r)
    ensures forall y :: y in r <==> y in words
  {
    r := [];
    var rest := words;
    while rest != {}
      invariant rest <= words
      invariant StrictlySorted(r)
      invariant forall y :: y in r <==> y in words && y !in rest
      decreases |rest|
    {
      var x :| x in rest;
      r := InsertSorted(x, r);
      rest := rest - {x};
    }
  }

  /** Every synonym is lower-case and longer than two characters. */
  lemma SynonymShape(fieldPart: string, labelText: string, y: string)
    requires IsSynonym(fieldPart, labelText, y)
    ensures IsLowerCase(y) && |y| > 2
  {
    if FieldSynonym(fieldPart, y) {
      var words := Split(fieldPart, '_');
      var k :| 0 <= k < |words| && KeepsFieldWord(words[k]) && y == Lower(words[k]);
    } else {
      var words := Split(labelText, ' ');
      var k :| 0 <= k < |words| && |KeepWordChars(words[k])| > 2 && y == Lower(KeepWordChars(words[k]));
    }
  }

  /** The head of a strictly sorted list comes before every other element. */
  lemma SortedHeadFirst(s: seq<string>, y: string)
    requires StrictlySorted(s) && y in s
    ensures y == s[0] || Less(s[0], y)
  {
    var j :| 0 <= j < |s| && s[j] == y;
  }

  /** Two strictly sorted lists with the same elements are the same list, so the result of
      `GenerateSynonyms` is determined by its inputs. */
  lemma {:induction false} StrictlySortedUnique(s: seq<string>, t: seq<string>)
    requires StrictlySorted(s) && StrictlySorted(t)
    requires forall y :: y in s <==> y in t
    ensures s == t
    decreases |s|
  {
    if |s| > 0 { assert s[0] in s; }
    if |t| > 0 { assert t[0] in t; }
    if |s| > 0 && |t| > 0 {
      if s[0] != t[0] {
        SortedHeadFirst(t, s[0]);
        SortedHeadFirst(s, t[0]);
        LessTransitive(s[0], t[0], s[0]);
        LessIrreflexive(s[0]);
      } else {
        forall y ensures y in s[1..] <==> y in t[1..] {
          if y in s[1..] {
            var i :| 0 <= i < |s| - 1 && s[1..][i] == y;
            assert Less(s[0], s[i + 1]);
            if y == s[0] { LessIrreflexive(y); }
            assert y in t;
            var j :| 0 <= j < |t| && t[j] == y;
            assert j > 0 && t[1..][j - 1] == y;
          }
          if y in t[1..] {
            var i :| 0 <= i < |t| - 1 && t[1..][i] == y;
            assert Less(t[0], t[i + 1]);
            if y == t[0] { LessIrreflexive(y); }
            assert y in s;
            var j :| 0 <= j < |s| && s[j] == y;
            assert j > 0 && s[1..][j - 1] == y;
          }
        }
        StrictlySortedUnique(s[1..], t[1..]);
        assert s == [s[0]] + s[1..] && t == [t[0]] + t[1..];
      }
    }
  }

  /** Two underscore-free words joined by an underscore split back into the two. */
  lemma SplitPair(a: string, b: string)
    requires '_' !in a && '_' !in b
    ensures Split(a + "_" + b, '_') == [a, b]
  {
    SplitAfter(a, b, '_');
    SplitWithout(b, '_');
  }

  /** A field word is excluded only as written: the upper-case "KEY" of "ORDER_KEY" is not
      a stop word, so "key" becomes a synonym. */
  lemma UpperStopWordKept()
    ensures IsSynonym("ORDER_KEY", "", "key")
  {
    assert "ORDER_KEY" == "ORDER" + "_" + "KEY";
    assert KeepsFieldWord("KEY");
    KeptAsWritten("ORDER", "KEY");
    assert Lower("KEY") == "key";
  }

  /** A kept word after an underscore yields its lower-case form. */
  lemma KeptAsWritten(a: string, w: string)
    requires '_' !in a && '_' !in w && KeepsFieldWord(w)
    ensures FieldSynonym(a + "_" + w, Lower(w))
  {
    SplitPair(a, w);
    assert Split(a + "_" + w, '_')[1] == w;
  }

  /** The lower-case stop word "key" of "order_key" gives no synonym. */
  lemma StopWordDropped()
    ensures !IsSynonym("order_key", "", "key")
  {
    assert "order_key" == "order" + "_" + "key";
    assert |Lower("order")| == 5;
    assert !KeepsFieldWord("key") by { assert StopWords[3] == "key"; }
    DroppedAsWritten("order", "key");
  }

  /** A word after an underscore that is not kept gives no synonym unless the word before
      it lowers to the same text. */
  lemma DroppedAsWritten(a: string, w: string)
    requires '_' !in a && '_' !in w && !KeepsFieldWord(w) && Lower(a) != Lower(w)
    ensures !FieldSynonym(a + "_" + w, Lower(w))
  {
    SplitPair(a, w);
  }

  // ---------------------------------------------------------------------------
  // Agent instructions (`generate_agent_instructions`).

  /** AGENT_INSTRUCTION_TOP_FIELDS. */
  const AgentInstructionTopFields: nat := 5

  const DescriptionPrefix := "User Description: "
  const QuestionsPrefix := "Common Questions: "
  const GoalsPrefix := "User Goals: "
  const FieldsPrefix := "Most Common Fields: "

  /** The entry used when nothing else applies. */
  const NoInstructions :=
    "No specific agent instructions" + " generated automatically."
    + " Review recommendations and top fields manually."

  /** The names of the first five top fields, in rank order. */
  function TopFieldNames(topUsedFields: History.ExploreScores): (r: seq<string>)
    ensures |r| == Min(AgentInstructionTopFields, |topUsedFields|)
    ensures forall i :: 0 <= i < |r| ==> r[i] == topUsedFields[i].name
  {
    History.Names(Take(topUsedFields, AgentInstructionTopFields))
  }

  /** The "Most Common Fields" entry. */
  function FieldsLine(topUsedFields: History.ExploreScores): string {
    FieldsPrefix + Join(", ", TopFieldNames(topUsedFields))
  }

  /** The entries appended before the fallback, in the order they are appended. */
  function Entries(topUsedFields: History.ExploreScores, userDescription: string,
                   commonQuestions: string, userGoals: string): seq<string>
  {
    (if userDescription != "" then [DescriptionPrefix + userDescription] else [])
    + (if commonQuestions != "" then [QuestionsPrefix + commonQuestions] else [])
    + (if userGoals != "" then [GoalsPrefix + userGoals] else [])
    + (if |topUsedFields| > 0 then [FieldsLine(topUsedFields)] else [])
  }

  /** The list `generate_agent_instructions` returns. */
  function AgentInstructions(topUsedFields: History.ExploreScores, userDescription: string,
                             commonQuestions: string, userGoals: string): seq<string>
  {
    var entries := Entries(topUsedFields, userDescription, commonQuestions, userGoals);
    if |entries| == 0 then [NoInstructions] else entries
  }

  /** `generate_agent_instructions(...)`; the recommendations are accepted and not used. */
  method GenerateAgentInstructions(topUsedFields: History.ExploreScores, recommendations: seq<string>,
                                   userDescription: string, commonQuestions: string, userGoals: string)
    returns (instructions: seq<string>)
    ensures instructions == AgentInstructions(topUsedFields, userDescription, commonQuestions, userGoals)
  {
    instructions := [];
    if userDescription != "" {
      instructions := instructions + [DescriptionPrefix + userDescription];
    }
    if commonQuestions != "" {
      instructions := instructions + [QuestionsPrefix + commonQuestions];
    }
    if userGoals != "" {
      instructions := instructions + [GoalsPrefix + userGoals];
    }
    if |topUsedFields| > 0 {
      var topFieldNames := TopFieldNames(topUsedFields);
      if |topFieldNames| > 0 {
        instructions := instructions + [FieldsPrefix + Join(", ", topFieldNames)];
        assert instructions[|instructions| - 1] == FieldsLine(topUsedFields);
      }
    }
    if |instructions| == 0 {
      instructions := instructions + [NoInstructions];
    }
  }

  /** Which kind of entry a line is: 0 description, 1 questions, 2 goals, 3 top fields,
      4 the fallback (or anything else). */
  function EntryKind(entry: string): nat
  {
    if StartsWith(entry, DescriptionPrefix) then 0
    else if StartsWith(entry, QuestionsPrefix) then 1
    else if StartsWith(entry, GoalsPrefix) then 2
    else if StartsWith(entry, FieldsPrefix) then 3
    else 4
  }

  lemma KindOfDescription(v: string)
    ensures EntryKind(DescriptionPrefix + v) == 0
  {
    assert (DescriptionPrefix + v)[..|DescriptionPrefix|] == DescriptionPrefix;
  }

  lemma KindOfQuestions(v: string)
    ensures EntryKind(QuestionsPrefix + v) == 1
  {
    var e := QuestionsPrefix + v;
    assert e[..|QuestionsPrefix|] == QuestionsPrefix;
    assert e[0] != DescriptionPrefix[0];
  }

  lemma KindOfGoals(v: string)
    ensures EntryKind(GoalsPrefix + v) == 2
  {
    var e := GoalsPrefix + v;
    assert e[..|GoalsPrefix|] == GoalsPrefix;
    assert e[5] != DescriptionPrefix[5];
    assert e[0] != QuestionsPrefix[0];
  }

  lemma KindOfFields(v: string)
    ensures EntryKind(FieldsPrefix + v) == 3
  {
    var e := FieldsPrefix + v;
    assert e[..|FieldsPrefix|] == FieldsPrefix;
    assert e[0] != DescriptionPrefix[0] && e[0] != QuestionsPrefix[0] && e[0] != GoalsPrefix[0];
  }

  lemma KindOfFallback()
    ensures EntryKind(NoInstructions) == 4
  {
    assert NoInstructions[0] == 'N' && NoInstructions[1] == 'o';
  }

  /** Entry kinds strictly increase along `r`. */
  predicate KindsIncreasing(r: seq<string>) {
    forall i, j :: 0 <= i < j < |r| ==> EntryKind(r[i]) < EntryKind(r[j])
  }

  /** Appending, or not, an entry of kind `n` after entries of smaller kinds keeps the kinds
      increasing. */
  lemma AppendKind(s: seq<string>, c: bool, e: string, n: nat)
    requires KindsIncreasing(s) && |s| <= n && KindsBelow(s, n)
    requires EntryKind(e) == n
    ensures var t := s + (if c then [e] else []);
      KindsIncreasing(t) && |t| <= n + 1 && KindsBelow(t, n + 1)
  {
  }

  /** Every entry of `r` has a kind below `n`. */
  predicate KindsBelow(r: seq<string>, n: nat) {
    forall i :: 0 <= i < |r| ==> EntryKind(r[i]) < n
  }

  /** The instructions are never empty, hold at most four entries, and list their kinds in
      strictly increasing order: description, questions, goals, top fields, each at most once. */
  lemma AgentInstructionsOrder(topUsedFields: History.ExploreScores, userDescription: string,
                               commonQuestions: string, userGoals: string)
    ensures var r := AgentInstructions(topUsedFields, userDescription, commonQuestions, userGoals);
      1 <= |r| <= 4 && KindsIncreasing(r)
  {
    var fieldsLine := FieldsLine(topUsedFields);
    KindOfDescription(userDescription);
    KindOfQuestions(commonQuestions);
    KindOfGoals(userGoals);
    KindOfFields(Join(", ", TopFieldNames(topUsedFields)));
    var s1 := if userDescription != "" then [DescriptionPrefix + userDescription] else [];
    assert KindsIncreasing(s1) && KindsBelow(s1, 1);
    var s2 := s1 + (if commonQuestions != "" then [QuestionsPrefix + commonQuestions] else []);
    AppendKind(s1, commonQuestions != "", QuestionsPrefix + commonQuestions, 1);
    var s3 := s2 + (if userGoals != "" then [GoalsPrefix + userGoals] else []);
    AppendKind(s2, userGoals != "", GoalsPrefix + userGoals, 2);
    AppendKind(s3, |topUsedFields| > 0, fieldsLine, 3);
    var entries := s3 + (if |topUsedFields| > 0 then [fieldsLine] else []);
    assert Entries(topUsedFields, userDescription, commonQuestions, userGoals) == entries;
  }

  /** An entry is one of the appended lines whose condition holds. */
  lemma EntriesMembers(topUsedFields: History.ExploreScores, userDescription: string,
                       commonQuestions: string, userGoals: string, x: string)
    ensures x in Entries(topUsedFields, userDescription, commonQuestions, userGoals) <==>
      || (userDescription != "" && x == DescriptionPrefix + userDescription)
      || (commonQuestions != "" && x == QuestionsPrefix + commonQuestions)
      || (userGoals != "" && x == GoalsPrefix + userGoals)
      || (|topUsedFields| > 0 && x == FieldsLine(topUsedFields))
  {
  }

  /** Each context entry is present exactly when its input is non-empty, the top-fields
      entry exactly when there are top fields, and the fallback exactly when there is
      nothing else. */
  lemma AgentInstructionsPresence(topUsedFields: History.ExploreScores, userDescription: string,
                                  commonQuestions: string, userGoals: string)
    ensures var r := AgentInstructions(topUsedFields, userDescription, commonQuestions, userGoals);
      && ((DescriptionPrefix + userDescription) in r <==> userDescription != "")
      && ((QuestionsPrefix + commonQuestions) in r <==> commonQuestions != "")
      && ((GoalsPrefix + userGoals) in r <==> userGoals != "")
      && (FieldsLine(topUsedFields) in r <==> |topUsedFields| > 0)
      && (NoInstructions in r <==> userDescription == "" && commonQuestions == "" && userGoals == "" && |topUsedFields| == 0)
  {
    var entries := Entries(topUsedFields, userDescription, commonQuestions, userGoals);
    KindOfDescription(userDescription);
    KindOfQuestions(commonQuestions);
    KindOfGoals(userGoals);
    KindOfFields(Join(", ", TopFieldNames(topUsedFields)));
    KindOfFallback();
    EntriesMembers(topUsedFields, userDescription, commonQuestions, userGoals, DescriptionPrefix + userDescription);
    EntriesMembers(topUsedFields, userDescription, commonQuestions, userGoals, QuestionsPrefix + commonQuestions);
    EntriesMembers(topUsedFields, userDescription, commonQuestions, userGoals, GoalsPrefix + userGoals);
    EntriesMembers(topUsedFields, userDescription, commonQuestions, userGoals, FieldsLine(topUsedFields));
    EntriesMembers(topUsedFields, userDescription, commonQuestions, userGoals, NoInstructions);
    assert |entries| == 0 <==> userDescription == "" && commonQuestions == "" && userGoals == "" && |topUsedFields| == 0;
  }

  /** The top-fields entry comes last and names the first five top fields in rank order. */
  lemma FieldsLineLast(topUsedFields: History.ExploreScores, userDescription: string,
                       commonQuestions: string, userGoals: string)
    requires |topUsedFields| > 0
    ensures var r := AgentInstructions(topUsedFields, userDescription, commonQuestions, userGoals);
      var names := TopFieldNames(topUsedFields);
      && r[|r| - 1] == FieldsPrefix + Join(", ", names)
      && 1 <= |names| <= AgentInstructionTopFields
      && names == History.Names(topUsedFields)[..|names|]
  {
  }

  // ---------------------------------------------------------------------------
  // The CA LookML file (`generate_ca_lookml_file_content`).

  /** CA_SUFFIX. */
  const CaSuffix := "_ca"
  const Indent := "  "

  /** One join of the explore definition; "" stands for a key that is absent or empty. */
  datatype JoinDef = JoinDef(name: string, joinType: string, relationship: string, sqlOn: string)

  /** The explore definition JSON: one that does not decode (or is not an object) is
      `Undecodable`; a missing or empty `view_name` is "". */
  datatype ExploreDefinition = Undecodable | Decoded(viewName: string, joins: seq<JoinDef>)

  /** The base view, or "" when the definition is unusable. */
  function BaseView(def: ExploreDefinition): string {
    if def.Decoded? then def.viewName else ""
  }

  /** The joins, or none when the definition is unusable. */
  function DefinedJoins(def: ExploreDefinition): seq<JoinDef> {
    if def.Decoded? then def.joins else []
  }

  /** `explore_key.split('/', 1)` unpacked into two names: the text before the first '/'
      and the text after it; `None` (Python's ValueError) when there is no '/'. */
  function SplitKey(key: string): (r: Option<(string, string)>)
    ensures r.None? <==> '/' !in key
    ensures r.Some? ==> '/' !in r.value.0 && key == r.value.0 + "/" + r.value.1
  {
    if |key| == 0 then None
    else if key[0] == '/' then
      assert key == "" + "/" + key[1..];
      Some(("", key[1..]))
    else
      match SplitKey(key[1..])
      case None => None
      case Some(parts) =>
        assert key == [key[0]] + key[1..];
        Some(([key[0]] + parts.0, parts.1))
  }

  /** Splitting the key `model/explore` gives back the model and the explore. */
  lemma KeyRoundTrip(model: string, explore: string)
    requires '/' !in model
    ensures SplitKey(model + "/" + explore) == Some((model, explore))
  {
    var key := model + "/" + explore;
    var (m, e) := SplitKey(key).value;
    assert key[..|model|] == model && key[|model|] == '/';
    assert key[..|m|] == m && key[|m|] == '/';
    assert m == model;
    assert e == key[|m| + 1..] == explore;
  }

  /** The comment header and the connection line. */
  function HeaderLines(exploreKey: string, exploreName: string): seq<string> {
    ["# LookML File for CA-Optimized Explore: " + exploreKey] + HeaderIntro
    + ["#          '" + exploreName + "', curated for Conversational Analytics (CA)."] + HeaderInstructions
  }

  const HeaderIntro: seq<string> := [
      "# Generated by Conversational Readiness Analyzer",
      "#",
      "# Purpose: This file defines extended Views and a new Explore based on"]

  const HeaderInstructions: seq<string> := [
      "#",
      "# Instructions:",
      "# 1. Save this file in your LookML project",
      "# 2. Replace 'CONNECTION_NAME_PLACEHOLDER' with your actual connection name",
      "# 3. Verify the 'include:' paths point correctly to your original view files",
      "# 4. Review and refine the auto-generated labels and descriptions",
      "",
      "connection: \"CONNECTION_NAME_PLACEHOLDER\"" ]

  /** The extended base view, when there is one. */
  function ViewBlock(baseView: string): seq<string> {
    if baseView != "" then
      [ "\nview: " + baseView + CaSuffix + " extends: [" + baseView + "] {",
        Indent + "# Add CA-specific refinements here",
        "}" ]
    else []
  }

  /** The opening of the extended explore. */
  function ExploreOpening(exploreName: string, baseView: string): seq<string> {
    ["\nexplore: " + exploreName + CaSuffix + " {"]
    + (if baseView != "" then [Indent + "from: " + baseView + CaSuffix] else [])
  }

  /** `[line]` when `present`, else nothing. */
  function OptionalLine(present: bool, line: string): seq<string> {
    if present then [line] else []
  }

  /** The opening line of the block of a join named `name`. */
  function JoinOpening(name: string): string {
    "\n" + Indent + "join: " + name + CaSuffix + " {"
  }

  /** The `from:` line of the block of a join named `name`. */
  function JoinFrom(name: string): string {
    Indent + Indent + "from: " + name + CaSuffix
  }

  /** The optional lines of a join block: type, relationship and `sql_on`, each when set. */
  function JoinOptions(j: JoinDef): seq<string> {
    OptionalLine(j.joinType != "", Indent + Indent + "type: " + j.joinType)
    + OptionalLine(j.relationship != "", Indent + Indent + "relationship: " + j.relationship)
    + OptionalLine(j.sqlOn != "", Indent + Indent + "sql_on: " + j.sqlOn + " ;;")
  }

  /** The closing line of a join block. */
  const JoinClosing := Indent + "}"

  /** The block of one join; a join without a name adds nothing. */
  function JoinBlock(j: JoinDef): seq<string> {
    if j.name == "" then []
    else [JoinOpening(j.name), JoinFrom(j.name)] + JoinOptions(j) + [JoinClosing]
  }

  /** The blocks of the joins, in the order of the joins. */
  function JoinBlocks(joins: seq<JoinDef>): seq<string>
    decreases |joins|
  {
    if |joins| == 0 then [] else JoinBlock(joins[0]) + JoinBlocks(joins[1..])
  }

  /** The blocks of two runs of joins are the blocks of the first, then of the second. */
  lemma {:induction false} JoinBlocksAppend(a: seq<JoinDef>, b: seq<JoinDef>)
    ensures JoinBlocks(a + b) == JoinBlocks(a) + JoinBlocks(b)
    decreases |a|
  {
    if |a| > 0 {
      assert (a + b)[0] == a[0] && (a + b)[1..] == a[1..] + b;
      JoinBlocksAppend(a[1..], b);
      assert JoinBlocks(a + b) == JoinBlock(a[0]) + (JoinBlocks(a[1..]) + JoinBlocks(b));
    } else {
      assert a + b == b;
    }
  }

  /** One more join adds its block at the end. */
  lemma JoinBlocksStep(joins: seq<JoinDef>, i: nat)
    requires i < |joins|
    ensures JoinBlocks(joins[..i + 1]) == JoinBlocks(joins[..i]) + JoinBlock(joins[i])
  {
    assert joins[..i + 1] == joins[..i] + [joins[i]];
    JoinBlocksAppend(joins[..i], [joins[i]]);
    assert JoinBlocks([joins[i]]) == JoinBlock(joins[i]) + JoinBlocks([]);
  }

  /** The lines of the file for explore `exploreName`. */
  function FileLines(exploreKey: string, exploreName: string, def: ExploreDefinition): seq<string> {
    HeaderLines(exploreKey, exploreName) + ViewBlock(BaseView(def))
    + ExploreOpening(exploreName, BaseView(def)) + JoinBlocks(DefinedJoins(def)) + ["}"]
  }

  /** The text of the file: its lines joined with newlines. */
  function FileContent(exploreKey: string, exploreName: string, def: ExploreDefinition): string {
    Join("\n", FileLines(exploreKey, exploreName, def))
  }

  /** The message of the ValueError raised for a key without '/'. */
  const KeyError := "not enough values to unpack (expected 2, got 1)"

  /** `generate_ca_lookml_file_content(explore_key, parsed_data, explore_definition_json)`
      with the definition already decoded; the parsed analysis is accepted and not used. */
  method GenerateCaLookmlFileContent(exploreKey: string, def: ExploreDefinition) returns (r: Result<string>)
    ensures r.Err? <==> '/' !in exploreKey
    ensures r.Ok? ==> r.value == FileContent(exploreKey, SplitKey(exploreKey).value.1, def)
  {
    var split := SplitKey(exploreKey);
    if split.None? {
      return Err(KeyError);
    }
    var exploreName := split.value.1;
    var caExploreName := exploreName + CaSuffix;
    var lines := HeaderLines(exploreKey, exploreName);
    var baseView := BaseView(def);
    var joins := DefinedJoins(def);
    ghost var header := lines;
    if baseView != "" {
      lines := lines + ["\nview: " + baseView + CaSuffix + " extends: [" + baseView + "] {"];
      lines := lines + [Indent + "# Add CA-specific refinements here"];
      lines := lines + ["}"];
    }
    assert lines == header + ViewBlock(baseView);
    ghost var withView := lines;
    lines := lines + ["\nexplore: " + caExploreName + " {"];
    if baseView != "" {
      lines := lines + [Indent + "from: " + baseView + CaSuffix];
    }
    ConcatAssoc("\nexplore: ", exploreName, CaSuffix);
    assert lines == withView + ExploreOpening(exploreName, baseView);
    lines := AppendJoinBlocks(lines, joins);
    lines := lines + ["}"];
    r := Ok(Join("\n", lines));
  }

  /** The join loop of `generate_ca_lookml_file_content`: appends the block of every join. */
  method AppendJoinBlocks(start: seq<string>, joins: seq<JoinDef>) returns (lines: seq<string>)
    ensures lines == start + JoinBlocks(joins)
  {
    lines := start;
    for i := 0 to |joins|
      invariant lines == start + JoinBlocks(joins[..i])
    {
      var join := joins[i];
      lines := AppendJoinBlock(lines, join);
      JoinBlocksStep(joins, i);
      ConcatAssoc(start, JoinBlocks(joins[..i]), JoinBlock(join));
    }
    assert joins[..|joins|] == joins;
  }

  /** One iteration of the join loop: appends the block of `join`. */
  method AppendJoinBlock(start: seq<string>, join: JoinDef) returns (lines: seq<string>)
    ensures lines == start + JoinBlock(join)
  {
    lines := start;
    if join.name != "" {
      lines := lines + [JoinOpening(join.name)];
      lines := lines + [JoinFrom(join.name)];
      ghost var opening := [JoinOpening(join.name), JoinFrom(join.name)];
      assert lines == start + opening;
      ghost var head := lines;
      ghost var o1 := OptionalLine(join.joinType != "", Indent + Indent + "type: " + join.joinType);
      ghost var o2 := OptionalLine(join.relationship != "", Indent + Indent + "relationship: " + join.relationship);
      ghost var o3 := OptionalLine(join.sqlOn != "", Indent + Indent + "sql_on: " + join.sqlOn + " ;;");
      lines := AppendOptional(lines, join.joinType != "", Indent + Indent + "type: " + join.joinType);
      lines := AppendOptional(lines, join.relationship != "", Indent + Indent + "relationship: " + join.relationship);
      lines := AppendOptional(lines, join.sqlOn != "", Indent + Indent + "sql_on: " + join.sqlOn + " ;;");
      ConcatAssoc(head, o1, o2);
      ConcatAssoc(head, o1 + o2, o3);
      assert lines == head + JoinOptions(join);
      lines := lines + [JoinClosing];
      ConcatAssoc(start, opening, JoinOptions(join));
      ConcatAssoc(start, opening + JoinOptions(join), [JoinClosing]);
    }
  }

  /** An `if value: lines.append(line)` step of a join block. */
  method AppendOptional(start: seq<string>, present: bool, line: string) returns (lines: seq<string>)
    ensures lines == start + OptionalLine(present, line)
  {
    lines := start;
    if present {
      lines := lines + [line];
    }
  }

  /** The file starts with the title comment naming the explore key, and ends with the
      brace that closes the extended explore. */
  lemma FileFrame(exploreKey: string, exploreName: string, def: ExploreDefinition)
    ensures StartsWith(FileContent(exploreKey, exploreName, def), "# LookML File for CA-Optimized Explore: " + exploreKey + "\n")
    ensures EndsWith(FileContent(exploreKey, exploreName, def), "\n}")
  {
    var lines := FileLines(exploreKey, exploreName, def);
    assert lines[0] == "# LookML File for CA-Optimized Explore: " + exploreKey;
    assert |lines| >= 2 && lines[|lines| - 1] == "}";
    ConcatParts(lines[0], "\n", Join("\n", lines[1..]));
    JoinLast("\n", lines);
    var front := Join("\n", lines[..|lines| - 1]);
    ConcatAssoc(front, "\n", "}");
    assert EndsWith("\n}", "\n}");
    EndsWithAppend(front, "\n}", "\n}");
  }

  /** The opening line of the block of every named join is among the join blocks. */
  lemma {:induction false} JoinBlocksOpen(joins: seq<JoinDef>, k: nat)
    requires k < |joins| && joins[k].name != ""
    ensures JoinOpening(joins[k].name) in JoinBlocks(joins)
    decreases |joins|
  {
    if k > 0 {
      JoinBlocksOpen(joins[1..], k - 1);
    }
  }

  /** Whatever line the file has, its text contains. */
  lemma FileHasLine(exploreKey: string, exploreName: string, def: ExploreDefinition, line: string)
    requires line in FileLines(exploreKey, exploreName, def)
    ensures Contains(FileContent(exploreKey, exploreName, def), line)
  {
    var lines := FileLines(exploreKey, exploreName, def);
    var k :| 0 <= k < |lines| && lines[k] == line;
    JoinHasPart("\n", lines, k);
  }

  /** The file declares the extended explore, extends the base view when there is one, and
      opens a block for every named join. */
  lemma FileMentions(exploreKey: string, exploreName: string, def: ExploreDefinition)
    ensures Contains(FileContent(exploreKey, exploreName, def), "\nexplore: " + exploreName + CaSuffix + " {")
    ensures var v := BaseView(def);
      v != "" ==> Contains(FileContent(exploreKey, exploreName, def), "\nview: " + v + CaSuffix + " extends: [" + v + "] {")
    ensures var joins := DefinedJoins(def);
      forall k :: 0 <= k < |joins| && joins[k].name != "" ==>
        Contains(FileContent(exploreKey, exploreName, def), JoinOpening(joins[k].name))
  {
    var v := BaseView(def);
    var joins := DefinedJoins(def);
    var header := HeaderLines(exploreKey, exploreName);
    var lines := FileLines(exploreKey, exploreName, def);
    assert lines == header + ViewBlock(v) + ExploreOpening(exploreName, v) + JoinBlocks(joins) + ["}"];
    assert ("\nexplore: " + exploreName + CaSuffix + " {") in ExploreOpening(exploreName, v);
    FileHasLine(exploreKey, exploreName, def, "\nexplore: " + exploreName + CaSuffix + " {");
    if v != "" {
      assert ("\nview: " + v + CaSuffix + " extends: [" + v + "] {") in ViewBlock(v);
      FileHasLine(exploreKey, exploreName, def, "\nview: " + v + CaSuffix + " extends: [" + v + "] {");
    }
    forall k | 0 <= k < |joins| && joins[k].name != ""
      ensures Contains(FileContent(exploreKey, exploreName, def), JoinOpening(joins[k].name))
    {
      JoinBlocksOpen(joins, k);
      FileHasLine(exploreKey, exploreName, def, JoinOpening(joins[k].name));
    }
  }

  /** A join without a name contributes nothing, wherever it stands. */
  lemma UnnamedJoinIgnored(before: seq<JoinDef>, j: JoinDef, after: seq<JoinDef>)
    requires j.name == ""
    ensures JoinBlocks(before + [j] + after) == JoinBlocks(before + after)
  {
    JoinBlocksAppend(before + [j], after);
    JoinBlocksAppend(before, [j]);
    JoinBlocksAppend(before, after);
    assert JoinBlock(j) == [];
    assert [j][1..] == [];
    assert JoinBlocks([j]) == [];
    assert JoinBlocks(before + [j]) == JoinBlocks(before);
  }

  /** The text that starts the block of a join. */
  const JoinPrefix := "\n" + Indent + "join: "

  predicate OpensJoin(line: string) {
    StartsWith(line, JoinPrefix)
  }

  predicate IsNamed(j: JoinDef) {
    j.name != ""
  }

  /** A line that starts with the indent does not open a join. */
  lemma IndentedNotOpening(line: string)
    requires StartsWith(line, Indent)
    ensures !OpensJoin(line)
  {
    assert line[0] == ' ';
  }

  /** The block of a join opens one join when the join is named, none otherwise. */
  lemma JoinBlockOpens(j: JoinDef)
    ensures Sections.CountWhere(JoinBlock(j), OpensJoin) == if j.name != "" then 1 else 0
  {
    if j.name != "" {
      var opts := JoinOptions(j);
      forall l | l in opts ensures !OpensJoin(l) {
        assert StartsWith(l, Indent) by {
          ConcatParts(Indent, Indent, l[|Indent + Indent|..]);
        }
        IndentedNotOpening(l);
      }
      ConcatParts(JoinPrefix, j.name + CaSuffix, " {");
      ConcatAssoc("\n" + Indent, "join: ", j.name);
      assert OpensJoin(JoinOpening(j.name));
      ConcatParts(Indent, Indent, "from: " + j.name + CaSuffix);
      IndentedNotOpening(JoinFrom(j.name));
      ConcatParts(Indent, "}", "");
      IndentedNotOpening(JoinClosing);
      NoneCounted(opts, OpensJoin);
      Sections.CountWhereConcat([JoinOpening(j.name), JoinFrom(j.name)], opts, OpensJoin);
      Sections.CountWhereConcat([JoinOpening(j.name), JoinFrom(j.name)] + opts, [JoinClosing], OpensJoin);
    }
  }

  /** Elements that fail the test are not counted. */
  lemma {:induction false} NoneCounted<T>(s: seq<T>, p: T -> bool)
    requires forall x :: x in s ==> !p(x)
    ensures Sections.CountWhere(s, p) == 0
    decreases |s|
  {
    if |s| > 0 {
      assert s[0] in s;
      NoneCounted(s[1..], p);
    }
  }

  /** Exactly one join block is opened per named join. */
  lemma {:induction false} JoinBlocksOpenCount(joins: seq<JoinDef>)
    ensures Sections.CountWhere(JoinBlocks(joins), OpensJoin) == Sections.CountWhere(joins, IsNamed)
    decreases |joins|
  {
    if |joins| > 0 {
      JoinBlockOpens(joins[0]);
      JoinBlocksOpenCount(joins[1..]);
      Sections.CountWhereConcat(JoinBlock(joins[0]), JoinBlocks(joins[1..]), OpensJoin);
    }
  }
}
