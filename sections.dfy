/** The per-section filters of the LookML generation handler: which recommendations,
    weighted fields and LookML suggestion lines are relevant to the explore section or
    to one view.  Each is an order-preserving list comprehension. */
module Sections {
  import opened Strings
  import History

  // ---------------------------------------------------------------------------
  // Order-preserving filters.

  /** `r` is `s` with some elements left out, the rest in their order. */
  predicate IsSubsequence<T(==)>(r: seq<T>, s: seq<T>)
    decreases |s|
  {
    if |r| == 0 then true
    else if |s| == 0 then false
    else if r[0] == s[0] then IsSubsequence(r[1..], s[1..])
    else IsSubsequence(r, s[1..])
  }

  /** The number of elements of `s` that satisfy `p`. */
  function CountWhere<T>(s: seq<T>, p: T -> bool): nat
    decreases |s|
  {
    if |s| == 0 then 0 else (if p(s[0]) then 1 else 0) + CountWhere(s[1..], p)
  }

  /** Counting over two runs adds the counts. */
  lemma {:induction false} CountWhereConcat<T>(a: seq<T>, b: seq<T>, p: T -> bool)
    ensures CountWhere(a + b, p) == CountWhere(a, p) + CountWhere(b, p)
    decreases |a|
  {
    if |a| > 0 {
      assert (a + b)[0] == a[0] && (a + b)[1..] == a[1..] + b;
      CountWhereConcat(a[1..], b, p);
    } else {
      assert a + b == b;
    }
  }

  /** `[x for x in s if p(x)]`: a subsequence of `s`, all of whose elements satisfy `p`,
      with as many elements as `s` has elements satisfying `p` (so it keeps exactly those). */
  function FilterBy<T(==)>(s: seq<T>, p: T -> bool): (r: seq<T>)
    ensures IsSubsequence(r, s)
    ensures forall i :: 0 <= i < |r| ==> p(r[i])
    ensures |r| == CountWhere(s, p) <= |s|
    decreases |s|
  {
    if |s| == 0 then []
    else if p(s[0]) then
      var rest := FilterBy(s[1..], p);
      assert ([s[0]] + rest)[1..] == rest;
      [s[0]] + rest
    else FilterBy(s[1..], p)
  }

  /** Filtering a list whose elements all pass changes nothing. */
  lemma {:induction false} FilterAllPass<T>(s: seq<T>, p: T -> bool)
    requires forall i :: 0 <= i < |s| ==> p(s[i])
    ensures FilterBy(s, p) == s
    decreases |s|
  {
    if |s| > 0 {
      FilterAllPass(s[1..], p);
      assert [s[0]] + s[1..] == s;
    }
  }

  /** Filtering twice with the same test is filtering once. */
  lemma FilterIdempotent<T>(s: seq<T>, p: T -> bool)
    ensures FilterBy(FilterBy(s, p), p) == FilterBy(s, p)
  {
    FilterAllPass(FilterBy(s, p), p);
  }

  /** An element of `s` that satisfies `p` is kept. */
  lemma {:induction false} FilterKeeps<T>(s: seq<T>, p: T -> bool, x: T)
    requires x in s && p(x)
    ensures x in FilterBy(s, p)
    decreases |s|
  {
    if s[0] != x {
      FilterKeeps(s[1..], p, x);
    }
  }

  // ---------------------------------------------------------------------------
  // Sections.

  /** `section.lower() == 'explore'`: the explore-level section rather than a view. */
  predicate IsExploreSection(section: string) {
    Lower(section) == "explore"
  }

  /** Which weighted fields a section keeps: for the explore, names with no '.' or that
      mention "join"; for a view, names starting with "<view>." (case-insensitively). */
  predicate KeepsField(section: string, name: string) {
    if IsExploreSection(section) then '.' !in name || Contains(Lower(name), "join")
    else StartsWith(Lower(name), Lower(section) + ".")
  }

  /** Which recommendations a section keeps: for the explore, those that mention
      "explore", "join" or "all"; for a view, those that mention the view or "all". */
  predicate KeepsRecommendation(section: string, rec: string) {
    var low := Lower(rec);
    if IsExploreSection(section) then Contains(low, "explore") || Contains(low, "join") || Contains(low, "all")
    else Contains(low, Lower(section)) || Contains(low, "all")
  }

  /** `filter_fields_for_section`. */
  function FilterFieldsForSection(fields: seq<History.FieldScore>, section: string): (r: seq<History.FieldScore>)
    ensures IsSubsequence(r, fields)
    ensures forall i :: 0 <= i < |r| ==> KeepsField(section, r[i].name)
    ensures |r| == CountWhere(fields, (f: History.FieldScore) => KeepsField(section, f.name))
    ensures forall f :: f in fields && KeepsField(section, f.name) ==> f in r
  {
    var keep := (f: History.FieldScore) => KeepsField(section, f.name);
    forall f | f in fields && KeepsField(section, f.name) ensures f in FilterBy(fields, keep) {
      FilterKeeps(fields, keep, f);
    }
    FilterBy(fields, keep)
  }

  /** `filter_recommendations_for_section`. */
  function FilterRecommendationsForSection(recs: seq<string>, section: string): (r: seq<string>)
    ensures IsSubsequence(r, recs)
    ensures forall i :: 0 <= i < |r| ==> KeepsRecommendation(section, r[i])
    ensures |r| == CountWhere(recs, (rec: string) => KeepsRecommendation(section, rec))
    ensures forall rec :: rec in recs && KeepsRecommendation(section, rec) ==> rec in r
  {
    var keep := (rec: string) => KeepsRecommendation(section, rec);
    forall rec | rec in recs && KeepsRecommendation(section, rec) ensures rec in FilterBy(recs, keep) {
      FilterKeeps(recs, keep, rec);
    }
    FilterBy(recs, keep)
  }

  /** The second pass of the handler for a view section (the comprehension that keeps
      fields starting with "<view>."), applied to the output of the first. */
  function RefilterForView(fields: seq<History.FieldScore>, section: string): seq<History.FieldScore>
  {
    FilterBy(fields, (f: History.FieldScore) => StartsWith(Lower(f.name), Lower(section) + "."))
  }

  /** For a view section the second pass keeps everything the first pass returned. */
  lemma RefilterIsIdentity(fields: seq<History.FieldScore>, section: string)
    requires !IsExploreSection(section)
    ensures RefilterForView(FilterFieldsForSection(fields, section), section) == FilterFieldsForSection(fields, section)
  {
    var r := FilterFieldsForSection(fields, section);
    FilterAllPass(r, (f: History.FieldScore) => StartsWith(Lower(f.name), Lower(section) + "."));
  }

  /** Which lines of the LookML suggestions a section keeps: those that mention the
      section or "explore". */
  predicate KeepsSuggestionLine(section: string, line: string) {
    Contains(Lower(line), Lower(section)) || Contains(Lower(line), "explore")
  }

  /** The relevant LookML suggestions: the kept lines, joined with newlines; "" when there
      are no suggestions.  Splitting the result at newlines gives back the kept lines. */
  function RelevantSuggestions(suggestions: string, section: string): (r: string)
    ensures suggestions == "" ==> r == ""
    ensures var kept := FilterBy(Split(suggestions, '\n'), (l: string) => KeepsSuggestionLine(section, l));
            suggestions != "" ==> (if |kept| == 0 then r == "" else Split(r, '\n') == kept)
  {
    if suggestions == "" then ""
    else
      var lines := Split(suggestions, '\n');
      var kept := FilterBy(lines, (l: string) => KeepsSuggestionLine(section, l));
      SubsequenceElements(kept, lines);
      if |kept| == 0 then ""
      else
        SplitJoin(kept, '\n');
        Join("\n", kept)
  }

  /** The elements of a subsequence are elements of the sequence. */
  lemma {:induction false} SubsequenceElements<T>(r: seq<T>, s: seq<T>)
    requires IsSubsequence(r, s)
    ensures forall i :: 0 <= i < |r| ==> r[i] in s
    decreases |s|
  {
    if |r| > 0 {
      if r[0] == s[0] {
        SubsequenceElements(r[1..], s[1..]);
        assert forall i :: 1 <= i < |r| ==> r[i] == r[1..][i - 1];
      } else {
        SubsequenceElements(r, s[1..]);
      }
    }
  }
}
