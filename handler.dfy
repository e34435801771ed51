/** The `/generate_ca_lookml` handler (looker_ca_analyzer.py, lines 498-606) without its
    HTTP, secret and Gemini plumbing: the clipping of the request, the per-section filters,
    the choice between a fresh prompt and a continuation prompt, the removal of the lines a
    continuation repeats, the stitching onto the previous output, and the truncation flag.
    The two Gemini replies (the recommendation summary and the LookML itself) are
    parameters. */
module Handler {
  import opened Strings
  import History
  import Sections

  /** MAX_RECOMMENDATIONS and MAX_WEIGHTED_FIELDS. */
  const MaxRecommendations: nat := 7
  const MaxWeightedFields: nat := 10
  /** The user context strings are each cut to 300 characters. */
  const MaxContextChars: nat := 300
  /** How many of the previous output's lines a continuation prompt quotes, and the longest
      repeated run removed when stitching. */
  const ContinuationLines: nat := 30

  /** The fields of the request body the handler reads: "" for an absent or empty user
      context string, previous prompt, previous output or suggestion text, an empty list for
      an absent list, `false` for an absent flag.  `section` holds "explore" when the body
      has none (the default of line 505).  `modelName` and `exploreName` have no default in
      the handler; they hold the text the prompt shows, which is "None" when absent. */
  datatype Request = Request(
    modelName: string,
    exploreName: string,
    section: string,
    recommendations: seq<string>,
    weightedFields: seq<History.FieldScore>,
    userDescription: string,
    commonQuestions: string,
    userGoals: string,
    isContinue: bool,
    previousPrompt: string,
    previousOutput: string,
    useExtends: bool,
    lookmlSuggestions: string)

  /** What the handler keeps of the request for the section it generates. */
  datatype Prepared = Prepared(
    recommendations: seq<string>,
    weightedFields: seq<History.FieldScore>,
    userDescription: string,
    commonQuestions: string,
    userGoals: string,
    suggestions: string,
    useExtends: bool)

  /** The JSON reply. */
  datatype Response = Response(code: string, isTruncated: bool, prompt: string)

  // ---------------------------------------------------------------------------
  // Clipping and filtering (lines 505-537).

  /** Of the first seven recommendations, exactly those that concern the section, in order;
      of the first ten weighted fields, exactly those that belong to it, in order; the user
      context cut to 300 characters; the suggestion lines that mention the section; and
      `use_extends` forced on for a view. */
  function PrepareInputs(req: Request): (r: Prepared)
    ensures |r.recommendations| <= MaxRecommendations && |r.weightedFields| <= MaxWeightedFields
    ensures var recs := Take(req.recommendations, MaxRecommendations);
            Sections.IsSubsequence(r.recommendations, recs)
            && (forall rec :: rec in recs && Sections.KeepsRecommendation(req.section, rec) <==> rec in r.recommendations)
    ensures var fields := Take(req.weightedFields, MaxWeightedFields);
            Sections.IsSubsequence(r.weightedFields, fields)
            && (forall f :: f in fields && Sections.KeepsField(req.section, f.name) <==> f in r.weightedFields)
    ensures !Sections.IsExploreSection(req.section) ==>
              forall i :: 0 <= i < |r.weightedFields| ==>
                StartsWith(Lower(r.weightedFields[i].name), Lower(req.section) + ".")
    ensures |r.userDescription| <= MaxContextChars && StartsWith(req.userDescription, r.userDescription)
    ensures |r.commonQuestions| <= MaxContextChars && StartsWith(req.commonQuestions, r.commonQuestions)
    ensures |r.userGoals| <= MaxContextChars && StartsWith(req.userGoals, r.userGoals)
    ensures r.recommendations == Sections.FilterRecommendationsForSection(Take(req.recommendations, MaxRecommendations), req.section)
    ensures r.weightedFields == Sections.FilterFieldsForSection(Take(req.weightedFields, MaxWeightedFields), req.section)
    ensures r.suggestions == Sections.RelevantSuggestions(req.lookmlSuggestions, req.section)
    ensures req.lookmlSuggestions == "" ==> r.suggestions == ""
    ensures r.useExtends == (req.useExtends || !Sections.IsExploreSection(req.section))
  {
    var recs := Take(req.recommendations, MaxRecommendations);
    var fields := Take(req.weightedFields, MaxWeightedFields);
    var filteredRecs := Sections.FilterRecommendationsForSection(recs, req.section);
    var filteredFields := Sections.FilterFieldsForSection(fields, req.section);
    Sections.SubsequenceElements(filteredRecs, recs);
    Sections.SubsequenceElements(filteredFields, fields);
    var explore := Sections.IsExploreSection(req.section);
    if !explore then Sections.RefilterIsIdentity(fields, req.section); Prepared(
      filteredRecs,
      if explore then filteredFields else Sections.RefilterForView(filteredFields, req.section),
      Take(req.userDescription, MaxContextChars),
      Take(req.commonQuestions, MaxContextChars),
      Take(req.userGoals, MaxContextChars),
      Sections.RelevantSuggestions(req.lookmlSuggestions, req.section),
      req.useExtends || !explore)
    else Prepared(
      filteredRecs,
      filteredFields,
      Take(req.userDescription, MaxContextChars),
      Take(req.commonQuestions, MaxContextChars),
      Take(req.userGoals, MaxContextChars),
      Sections.RelevantSuggestions(req.lookmlSuggestions, req.section),
      req.useExtends)
  }

  // ---------------------------------------------------------------------------
  // The continuation prompt (lines 539-544).

  /** The handler asks for a continuation only when it has the flag, the previous prompt and
      the previous output. */
  predicate ContinuesPrompt(req: Request) {
    req.isContinue && req.previousPrompt != "" && req.previousOutput != ""
  }

  /** The last (up to) thirty lines of the stripped previous output, rejoined.  Splitting it
      again gives exactly those lines. */
  function LastLines(previousOutput: string): (r: string)
    ensures var lines := Split(Strip(previousOutput), '\n');
            var kept := Split(r, '\n');
            |kept| == Min(ContinuationLines, |lines|) && kept == lines[|lines| - |kept|..]
  {
    var lines := Split(Strip(previousOutput), '\n');
    var kept := Last(lines, ContinuationLines);
    SplitJoin(kept, '\n');
    Join("\n", kept)
  }

  const ContinueInstruction: string :=
    "\n\nHere are the last lines you generated. Do NOT repeat any code already provided. Only generate new code that comes after these lines.\n"

  /** The previous prompt, then the instruction not to repeat, then the quoted last lines. */
  function ContinuationPrompt(previousPrompt: string, previousOutput: string): (r: string)
    ensures StartsWith(r, previousPrompt)
    ensures EndsWith(r, "LAST_LINES:\n" + LastLines(previousOutput) + "\n")
    ensures Contains(r, ContinueInstruction)
  {
    var tail := "LAST_LINES:\n" + LastLines(previousOutput) + "\n";
    var r := previousPrompt + ContinueInstruction + tail;
    assert r[..|previousPrompt|] == previousPrompt;
    assert r[|r| - |tail|..] == tail;
    ContainsMiddle(previousPrompt, ContinueInstruction, tail);
    r
  }

  // ---------------------------------------------------------------------------
  // The fresh prompt (lines 545-580).

  /** The characters `lstrip('-*0123456789. ')` removes from a summary line. */
  function BulletChars(): set<char> {
    {'-', '*', '0', '1', '2', '3', '4', '5', '6', '7', '8', '9', '.', ' '}
  }

  /** `line.strip()` is not empty. */
  predicate NonBlank(line: string) {
    Strip(line) != ""
  }

  /** `line.lstrip('-*0123456789. ').strip()`. */
  function CleanItem(line: string): string {
    Strip(LStripChars(line, BulletChars()))
  }

  /** `item` is a window `line[a..b]` of the line: before it come the longest run of bullet
      characters at the start of the line and then white space only, after it white space
      only, and it neither starts nor ends with white space. */
  ghost predicate CleanedFrom(line: string, item: string) {
    exists d: nat, a: nat, b: nat :: StripCharsWindow(line, BulletChars(), d, a, b, item)
  }

  /** A line is cleaned to one item at most. */
  lemma CleanedFromUnique(line: string, x: string, y: string)
    requires CleanedFrom(line, x) && CleanedFrom(line, y)
    ensures x == y
  {
    var d: nat, a: nat, b: nat :| StripCharsWindow(line, BulletChars(), d, a, b, x);
    var d': nat, a': nat, b': nat :| StripCharsWindow(line, BulletChars(), d', a', b', y);
    StripCharsWindowUnique(line, BulletChars(), d, a, b, x, d', a', b', y);
  }

  /** The cleaned line is the window `CleanedFrom` describes, so it holds no line break the
      line does not. */
  lemma CleanItemCleaned(line: string)
    ensures CleanedFrom(line, CleanItem(line))
    ensures '\n' !in line ==> '\n' !in CleanItem(line)
  {
    var d, a, b := LStripCharsStripWindow(line, BulletChars());
    if '\n' !in line {
      WindowWithout(line, a, b, '\n');
    }
  }

  /** `r` holds one item per non-blank line of `lines`, in order, each the item
      `CleanedFrom` describes for its line. */
  ghost predicate CleanedItems(lines: seq<string>, r: seq<string>) {
    var kept := Sections.FilterBy(lines, NonBlank);
    |r| == |kept| && forall i :: 0 <= i < |r| ==> CleanedFrom(kept[i], r[i])
  }

  /** `[clean(line) for line in lines if line.strip()]`: one item per non-blank line, each
      cut from its line, in order. */
  function SummaryItems(lines: seq<string>): (r: seq<string>)
    ensures |r| == Sections.CountWhere(lines, NonBlank) && CleanedItems(lines, r)
    ensures (forall i :: 0 <= i < |lines| ==> '\n' !in lines[i]) ==> forall i :: 0 <= i < |r| ==> '\n' !in r[i]
  {
    var kept := Sections.FilterBy(lines, NonBlank);
    Sections.SubsequenceElements(kept, lines);
    CleanAll(kept)
  }

  /** The cleaned item of every line, in order. */
  function CleanAll(lines: seq<string>): (r: seq<string>)
    ensures |r| == |lines|
    ensures forall i :: 0 <= i < |r| ==> CleanedFrom(lines[i], r[i])
    ensures (forall i :: 0 <= i < |lines| ==> '\n' !in lines[i]) ==> forall i :: 0 <= i < |r| ==> '\n' !in r[i]
  {
    ItemsCleaned(lines);
    seq(|lines|, i requires 0 <= i < |lines| => CleanItem(lines[i]))
  }

  /** Every line's cleaned item is the one `CleanedFrom` describes. */
  lemma ItemsCleaned(lines: seq<string>)
    ensures forall i :: 0 <= i < |lines| ==> CleanedFrom(lines[i], CleanItem(lines[i]))
    ensures forall i :: 0 <= i < |lines| && '\n' !in lines[i] ==> '\n' !in CleanItem(lines[i])
  {
    forall i | 0 <= i < |lines|
      ensures CleanedFrom(lines[i], CleanItem(lines[i]))
      ensures '\n' !in lines[i] ==> '\n' !in CleanItem(lines[i])
    {
      CleanItemCleaned(lines[i]);
    }
  }

  /** `summarize_recommendations_with_gemini` after the Gemini call (lines 472-476): the
      reply is stripped and split into lines, and each non-blank line gives one item, in
      order; no item holds a line break. */
  function SummaryLines(summary: string): (r: seq<string>)
    ensures var lines := Split(Strip(summary), '\n');
            |r| == Sections.CountWhere(lines, NonBlank) <= |lines| && CleanedItems(lines, r)
    ensures forall i :: 0 <= i < |r| ==> '\n' !in r[i]
  {
    SummaryItems(Split(Strip(summary), '\n'))
  }

  /** The user context block shared by both prompt templates. */
  function ContextBlock(p: Prepared): string {
    "User Description: " + p.userDescription + "\nCommon Questions: " + p.commonQuestions
    + "\nUser Goals: " + p.userGoals + "\n\n"
  }

  const RecommendationsHeading: string := "\n\nSummarized Recommendations:\n"

  /** The opening paragraph of the template: the explore's for the explore section, the
      view's (with its rules) otherwise. */
  function Intro(req: Request): string {
    if Sections.IsExploreSection(req.section) then
      "\nYou are an expert LookML developer. Generate the LookML for the explore '" + req.exploreName
      + "' in model '" + req.modelName
      + "', implementing as many of the summarized recommendations as possible for Conversational Analytics readiness. Use the weighted fields to prioritize which joins or explore-level settings to improve. Use the user context to inform labels and descriptions. Output only the LookML code for the explore, ready to copy/paste into a LookML project.\n\n"
    else
      "\nYou are an expert LookML developer. Generate an extends view for '" + req.section
      + "' in model '" + req.modelName
      + "', including ONLY the relevant fields below. Implement as many of the summarized recommendations as possible for Conversational Analytics readiness. Use the weighted fields to prioritize which fields to improve. Use the user context to inform labels and descriptions.\n\nIMPORTANT RULES:\n1. Keep all synonyms within the description parameter, do not add a separate synonym parameter\n2. Only include the relevant fields listed below in the extends view\n3. Output only the LookML code for the extends view, ready to copy/paste into a LookML project.\n\n"
  }

  /** How the template introduces the weighted fields. */
  function FieldsLabel(req: Request): string {
    if Sections.IsExploreSection(req.section) then "Weighted Fields" else "Relevant Fields"
  }

  /** An opening paragraph, the user context, the fields and the recommendations heading. */
  function AssembleHeader(intro: string, p: Prepared, fieldsLabel: string, fieldsText: string): (r: string)
    ensures Contains(r, ContextBlock(p))
    ensures EndsWith(r, RecommendationsHeading)
  {
    var fields := fieldsLabel + " (most important first): " + fieldsText;
    var rest := fields + RecommendationsHeading;
    ContainsMiddle(intro, ContextBlock(p), rest);
    EndsWithLast(fields, RecommendationsHeading);
    EndsWithAppend(intro + ContextBlock(p), rest, RecommendationsHeading);
    intro + ContextBlock(p) + rest
  }

  /** The filled-in template of lines 549-575.  `fieldsText` is Python's rendering of the
      filtered weighted fields. */
  function PromptHeader(req: Request, p: Prepared, fieldsText: string): (r: string)
    ensures Contains(r, ContextBlock(p))
    ensures EndsWith(r, RecommendationsHeading)
  {
    AssembleHeader(Intro(req), p, FieldsLabel(req), fieldsText)
  }

  /** The prompt line of one summarized recommendation. */
  function BulletLine(item: string): (r: string)
    ensures '\n' !in item ==> '\n' !in r
  {
    "- " + item
  }

  /** One bullet line per summarized recommendation, each ended by a newline, in order. */
  function Bullets(items: seq<string>): string
  {
    if |items| == 0 then "" else Bullets(items[..|items| - 1]) + BulletLine(items[|items| - 1]) + "\n"
  }

  /** The bullet lines themselves. */
  function BulletLines(items: seq<string>): (r: seq<string>)
    ensures |r| == |items|
    ensures forall i :: 0 <= i < |items| ==> r[i] == BulletLine(items[i])
  {
    seq(|items|, i requires 0 <= i < |items| => BulletLine(items[i]))
  }

  /** Each summarized recommendation becomes one prompt line, in order, before whatever the
      prompt holds next. */
  lemma {:induction false} BulletsSplit(items: seq<string>, tail: string)
    requires forall i :: 0 <= i < |items| ==> '\n' !in items[i]
    ensures Split(Bullets(items) + tail, '\n') == BulletLines(items) + Split(tail, '\n')
    decreases |items|
  {
    if |items| > 0 {
      var init := items[..|items| - 1];
      var line := BulletLine(items[|items| - 1]);
      var after := line + "\n" + tail;
      BulletsSplit(init, after);
      SplitAfter(line, tail, '\n');
      assert Bullets(items) + tail == Bullets(init) + after;
      assert BulletLines(items) == BulletLines(init) + [line];
    } else {
      assert Bullets(items) + tail == tail;
    }
  }

  const SuggestionsHeading: string := "\nRelevant LookML Suggestions:\n"
  const ClosingInstruction: string :=
    "\nGenerate only the LookML code for this extends view. Do not include other views or explores."

  /** The relevant suggestions with their heading, or nothing when there are none. */
  function SuggestionsPart(suggestions: string): (r: string)
    ensures suggestions == "" <==> r == ""
    ensures suggestions != "" ==> StartsWith(r, SuggestionsHeading + suggestions)
  {
    if suggestions != "" then
      var r := SuggestionsHeading + suggestions + "\n";
      assert r[..|SuggestionsHeading + suggestions|] == SuggestionsHeading + suggestions;
      r
    else ""
  }

  /** The part of a fresh prompt after the summarized recommendations. */
  function PromptTail(suggestions: string): string {
    SuggestionsPart(suggestions) + ClosingInstruction
  }

  /** The header, one line per summarized recommendation, then the relevant suggestions (when
      there are any) and the closing instruction. */
  function FreshPrompt(header: string, items: seq<string>, suggestions: string): (r: string)
    ensures StartsWith(r, header)
    ensures EndsWith(r, ClosingInstruction)
  {
    var r := header + Bullets(items) + SuggestionsPart(suggestions) + ClosingInstruction;
    PrefixOfConcat(header, Bullets(items), SuggestionsPart(suggestions), ClosingInstruction);
    r
  }

  /** The first of four parts starts their concatenation, the last ends it, and what follows
      the first is the rest. */
  lemma PrefixOfConcat(a: string, b: string, c: string, d: string)
    ensures StartsWith(a + b + c + d, a) && EndsWith(a + b + c + d, d)
    ensures (a + b + c + d)[|a|..] == b + (c + d)
  {
    var r := a + b + c + d;
    assert r[..|a|] == a;
    assert r[|r| - |d|..] == d;
  }

  /** The lines of a fresh prompt after its header are the bullets, then the tail. */
  lemma FreshPromptLines(header: string, items: seq<string>, suggestions: string)
    requires forall i :: 0 <= i < |items| ==> '\n' !in items[i]
    ensures var r := FreshPrompt(header, items, suggestions);
            Split(r[|header|..], '\n') == BulletLines(items) + Split(PromptTail(suggestions), '\n')
  {
    PrefixOfConcat(header, Bullets(items), SuggestionsPart(suggestions), ClosingInstruction);
    BulletsSplit(items, PromptTail(suggestions));
  }

  /** The appends of lines 576-580: the loop over the items (576-577), then the
      suggestions and the closing instruction. */
  method BuildFreshPrompt(header: string, items: seq<string>, suggestions: string) returns (prompt: string)
    ensures prompt == FreshPrompt(header, items, suggestions)
  {
    prompt := header;
    for n := 0 to |items|
      invariant prompt == header + Bullets(items[..n])
    {
      assert items[..n + 1][..n] == items[..n];
      prompt := prompt + BulletLine(items[n]) + "\n";
    }
    assert items[..|items|] == items;
    if suggestions != "" {
      prompt := prompt + (SuggestionsHeading + suggestions + "\n");
    }
    prompt := prompt + ClosingInstruction;
  }

  /** The prompt the handler sends for the LookML. */
  function PromptFor(req: Request, fieldsText: string, summary: string): (r: string)
    ensures ContinuesPrompt(req) ==> StartsWith(r, req.previousPrompt)
    ensures !ContinuesPrompt(req) ==> EndsWith(r, ClosingInstruction)
  {
    if ContinuesPrompt(req) then ContinuationPrompt(req.previousPrompt, req.previousOutput)
    else
      var p := PrepareInputs(req);
      var header := PromptHeader(req, p, fieldsText);
      FreshPrompt(header, SummaryLines(summary), p.suggestions)
  }

  // ---------------------------------------------------------------------------
  // Removing the repeated lines (lines 584-596).

  /** The last `i` previous lines are the first `i` new lines. */
  predicate Matches(prev: seq<string>, next: seq<string>, i: nat) {
    i <= |prev| && i <= |next| && prev[|prev| - i..] == next[..i]
  }

  /** `min(30, len(prev_lines), len(new_lines))`. */
  function MaxOverlap(prev: seq<string>, next: seq<string>): nat {
    Min(ContinuationLines, Min(|prev|, |next|))
  }

  /** The largest `k <= i` at which the lines match, 0 when none does. */
  function OverlapFrom(prev: seq<string>, next: seq<string>, i: nat): (k: nat)
    ensures k <= i
    ensures k > 0 ==> Matches(prev, next, k)
    ensures forall j :: k < j <= i ==> !Matches(prev, next, j)
  {
    if i == 0 then 0
    else if Matches(prev, next, i) then i
    else OverlapFrom(prev, next, i - 1)
  }

  /** The longest run of at most 30 lines that ends the previous output and starts the new. */
  function Overlap(prev: seq<string>, next: seq<string>): (k: nat)
    ensures k <= ContinuationLines && k <= |prev| && k <= |next|
    ensures k > 0 ==> Matches(prev, next, k)
    ensures forall j :: k < j <= MaxOverlap(prev, next) ==> !Matches(prev, next, j)
  {
    OverlapFrom(prev, next, MaxOverlap(prev, next))
  }

  /** The countdown loop: the first `i` from the maximum down that matches. */
  method FindOverlap(prev: seq<string>, next: seq<string>) returns (overlap: nat)
    ensures overlap == Overlap(prev, next)
  {
    var maxOverlap := Min(ContinuationLines, Min(|prev|, |next|));
    overlap := 0;
    var i: nat := maxOverlap;
    while i > 0
      invariant i <= maxOverlap
      invariant OverlapFrom(prev, next, i) == OverlapFrom(prev, next, maxOverlap)
      invariant overlap == 0
    {
      if prev[|prev| - i..] == next[..i] {
        overlap := i;
        break;
      }
      i := i - 1;
    }
  }

  /** The separator put between the previous output and the new code: a newline unless the
      previous output already ends with one. */
  function Separator(previousOutput: string): (r: string)
    ensures r == "" || r == "\n"
    ensures r == "" <==> EndsWith(previousOutput, "\n")
  {
    if EndsWith(previousOutput, "\n") then "" else "\n"
  }

  /** The previous output and the separator end with exactly the newline between the parts. */
  lemma SeparatorEndsLine(previousOutput: string)
    ensures EndsWith(previousOutput + Separator(previousOutput), "\n")
  {
    var s := previousOutput + Separator(previousOutput);
    if Separator(previousOutput) == "\n" {
      assert s[|s| - 1..] == "\n";
    } else {
      assert s == previousOutput;
    }
  }

  /** `text.strip().split('\n')`. */
  function Lines(text: string): (r: seq<string>)
    ensures |r| >= 1 && forall i :: 0 <= i < |r| ==> '\n' !in r[i]
  {
    Split(Strip(text), '\n')
  }

  /** The new code with the lines it repeats from the previous output removed, or as it came
      when it repeats none. */
  function DropRepeated(prevLines: seq<string>, newLines: seq<string>, code: string): string {
    var k := Overlap(prevLines, newLines);
    if k > 0 then Join("\n", newLines[k..]) else code
  }

  /** The new part of the stitched code. */
  function NewPart(previousOutput: string, code: string): string {
    DropRepeated(Lines(previousOutput), Lines(code), code)
  }

  /** The previous output, the separator, then the new part. */
  function StitchedCode(previousOutput: string, code: string): string {
    previousOutput + Separator(previousOutput) + NewPart(previousOutput, code)
  }

  /** The stitched code keeps the previous output in front, followed by the separator and
      the new part. */
  lemma StitchedStart(previousOutput: string, code: string)
    ensures var r := StitchedCode(previousOutput, code);
            var head := previousOutput + Separator(previousOutput);
            StartsWith(r, previousOutput) && StartsWith(r, head) && r[|head|..] == NewPart(previousOutput, code)
  {
    ConcatParts(previousOutput, Separator(previousOutput), NewPart(previousOutput, code));
  }

  /** Without an overlap the new code is appended unchanged; with one, the dropped lines are
      exactly the repeated ones and the remaining new lines follow in order (nothing at all
      when every new line repeats). */
  lemma DropRepeatedLines(prevLines: seq<string>, newLines: seq<string>, code: string)
    requires forall i :: 0 <= i < |newLines| ==> '\n' !in newLines[i]
    ensures var k := Overlap(prevLines, newLines);
            var part := DropRepeated(prevLines, newLines, code);
            (k == 0 ==> part == code)
            && (k > 0 ==> newLines[..k] == prevLines[|prevLines| - k..])
            && (0 < k < |newLines| ==> Split(part, '\n') == newLines[k..])
            && (0 < k == |newLines| ==> part == "")
  {
    var k := Overlap(prevLines, newLines);
    if 0 < k < |newLines| {
      SplitJoin(newLines[k..], '\n');
    }
  }

  /** The stitching of lines 584-596. */
  method Stitch(previousOutput: string, code: string) returns (r: string)
    ensures r == StitchedCode(previousOutput, code)
  {
    var prevLines := Lines(previousOutput);
    var newLines := Lines(code);
    var overlap := FindOverlap(prevLines, newLines);
    var part := code;
    if overlap > 0 {
      part := Join("\n", newLines[overlap..]);
    }
    assert part == DropRepeated(prevLines, newLines, code);
    var separator := if !EndsWith(previousOutput, "\n") then "\n" else "";
    assert separator == Separator(previousOutput);
    r := previousOutput + separator + part;
  }

  /** The handler stitches when it has the flag and the previous output (the previous prompt
      is not needed). */
  predicate Stitches(req: Request) {
    req.isContinue && req.previousOutput != ""
  }

  // ---------------------------------------------------------------------------
  // The truncation flag (lines 598-600).

  /** The text `analyze_with_gemini` puts in front of a reply cut off at the token limit. */
  const TruncationMarker: string := "Warning: Response truncated (MAX_TOKENS)"

  /** The flag as written: the marker anywhere in the returned code, which for a continuation
      includes the whole previous output. */
  predicate TruncatedAsWritten(finalCode: string) {
    Contains(finalCode, TruncationMarker)
  }

  /** As written, once one part carried the marker every later continuation reports
      truncation, whatever the new reply is. */
  lemma StickyTruncationAsWritten(previousOutput: string, code: string)
    requires Contains(previousOutput, TruncationMarker)
    ensures TruncatedAsWritten(StitchedCode(previousOutput, code))
  {
    ContainsExtend(previousOutput, Separator(previousOutput) + NewPart(previousOutput, code), TruncationMarker);
    ConcatAssoc(previousOutput, Separator(previousOutput), NewPart(previousOutput, code));
  }

  /** A complete reply continuing a truncated first part: whatever followed the marker in the
      first part, the one-line reply "}" carries no marker, yet the flag as written says
      truncated. */
  lemma TruncationMisreported(firstPart: string)
    ensures var previousOutput := TruncationMarker + firstPart;
            TruncatedAsWritten(StitchedCode(previousOutput, "}")) && !Contains("}", TruncationMarker)
  {
    var previousOutput := TruncationMarker + firstPart;
    assert Contains(previousOutput, TruncationMarker) by {
      assert previousOutput == "" + TruncationMarker + firstPart;
      ContainsMiddle("", TruncationMarker, firstPart);
    }
    StickyTruncationAsWritten(previousOutput, "}");
    MarkerNotInBrace();
  }

  /** The one-line reply "}" is too short to hold the marker. */
  lemma MarkerNotInBrace()
    ensures !Contains("}", TruncationMarker)
  {
    assert !StartsWith("}", TruncationMarker);
    assert !StartsWith("", TruncationMarker);
    assert "}"[1..] == "";
  }

  /** The flag meant: whether the reply to this request was cut off. */
  predicate IsTruncated(llmOutput: string) {
    Contains(llmOutput, TruncationMarker)
  }

  /** Without stitching, the corrected flag is the flag as written. */
  lemma TruncationFlagsAgree(req: Request, llmOutput: string)
    requires !Stitches(req)
    ensures IsTruncated(llmOutput) == TruncatedAsWritten(FinalCode(req, llmOutput))
  {
  }

  /** The code the handler returns. */
  function FinalCode(req: Request, llmOutput: string): string {
    if Stitches(req) then StitchedCode(req.previousOutput, llmOutput) else llmOutput
  }

  // ---------------------------------------------------------------------------
  // The handler.

  /** `generate_ca_lookml` for one request, given Python's rendering of the filtered weighted
      fields, Gemini's summary of the recommendations and Gemini's LookML reply. */
  method GenerateCaLookml(req: Request, fieldsText: string, summary: string, llmOutput: string)
    returns (resp: Response)
    ensures resp.prompt == PromptFor(req, fieldsText, summary)
    ensures resp.code == FinalCode(req, llmOutput)
    ensures resp.isTruncated == IsTruncated(llmOutput)
  {
    var prompt;
    if ContinuesPrompt(req) {
      prompt := ContinuationPrompt(req.previousPrompt, req.previousOutput);
    } else {
      var p := PrepareInputs(req);
      var header := PromptHeader(req, p, fieldsText);
      prompt := BuildFreshPrompt(header, SummaryLines(summary), p.suggestions);
    }
    var code := llmOutput;
    if Stitches(req) {
      code := Stitch(req.previousOutput, llmOutput);
    }
    resp := Response(code, Contains(llmOutput, TruncationMarker), prompt);
  }
}
