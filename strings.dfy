/** The Python `str` operations the analyzer uses (`split`, `join`, `strip`, `lower`,
    `startswith`, `endswith`, `in`, `<`, slicing), on `seq<char>`.  `lower`, `strip`
    and the `\w` class are restricted to ASCII. */
module Strings {

  // ---------------------------------------------------------------------------
  // Slicing: Python's `s[:n]` and `s[-n:]` for a non-negative n.

  function Min(a: nat, b: nat): nat { if a <= b then a else b }

  /** `s[:n]`: the first n elements, or all of them when there are fewer. */
  function Take<T>(s: seq<T>, n: nat): (r: seq<T>)
    ensures |r| == Min(n, |s|)
    ensures r == s[..|r|]
  {
    if |s| <= n then s else s[..n]
  }

  /** `s[-n:]` for n >= 1, and all of `s` when it is shorter than n. */
  function Last<T>(s: seq<T>, n: nat): (r: seq<T>)
    ensures |r| == Min(n, |s|)
    ensures r == s[|s| - |r|..]
  {
    if |s| <= n then s else s[|s| - n..]
  }

  // ---------------------------------------------------------------------------
  // Prefix, suffix, substring.

  predicate StartsWith(s: string, p: string) {
    |p| <= |s| && s[..|p|] == p
  }

  predicate EndsWith(s: string, p: string) {
    |p| <= |s| && s[|s| - |p|..] == p
  }

  /** Concatenation regroups freely. */
  lemma ConcatAssoc<T>(a: seq<T>, b: seq<T>, c: seq<T>)
    ensures a + b + c == a + (b + c)
  {
  }

  /** The first of three parts starts their concatenation, and the third follows the first two. */
  lemma ConcatParts(a: string, b: string, c: string)
    ensures StartsWith(a + b + c, a) && StartsWith(a + b + c, a + b)
    ensures (a + b + c)[|a + b|..] == c
  {
    assert (a + b + c)[..|a|] == a;
    assert (a + b + c)[..|a + b|] == a + b;
  }

  /** A string ends with its last part. */
  lemma EndsWithLast(a: string, p: string)
    ensures EndsWith(a + p, p)
  {
    assert (a + p)[|a|..] == p;
  }

  /** Text in front of a string keeps its suffixes. */
  lemma EndsWithAppend(a: string, b: string, p: string)
    requires EndsWith(b, p)
    ensures EndsWith(a + b, p)
  {
    assert (a + b)[|a + b| - |p|..] == b[|b| - |p|..];
  }

  /** Python's `sub in s`: some window of `s` equals `sub` (the empty string is in every string). */
  predicate Contains(s: string, sub: string)
    decreases |s|
  {
    StartsWith(s, sub) || (|s| > 0 && Contains(s[1..], sub))
  }

  /** `sub` occurs in `s` starting at index `i`. */
  predicate OccursAt(s: string, sub: string, i: nat) {
    i + |sub| <= |s| && s[i..i + |sub|] == sub
  }

  /** `Contains` agrees with the window definition. */
  lemma {:induction false} ContainsAt(s: string, sub: string)
    ensures Contains(s, sub) <==> exists i: nat :: OccursAt(s, sub, i)
    decreases |s|
  {
    if StartsWith(s, sub) {
      assert OccursAt(s, sub, 0);
    }
    if |s| > 0 {
      ContainsAt(s[1..], sub);
      if Contains(s[1..], sub) {
        var i: nat :| OccursAt(s[1..], sub, i);
        assert s[i + 1..i + 1 + |sub|] == s[1..][i..i + |sub|];
        assert OccursAt(s, sub, i + 1);
      }
      if exists i: nat :: OccursAt(s, sub, i) {
        var i: nat :| OccursAt(s, sub, i);
        if i > 0 {
          assert s[1..][i - 1..i - 1 + |sub|] == s[i..i + |sub|];
          assert OccursAt(s[1..], sub, i - 1);
        }
      }
    } else if exists i: nat :: OccursAt(s, sub, i) {
      var i: nat :| OccursAt(s, sub, i);
      assert s[..|sub|] == s[i..i + |sub|];
    }
  }

  /** Appending text never removes a substring that was already there. */
  lemma {:induction false} ContainsExtend(a: string, b: string, sub: string)
    requires Contains(a, sub)
    ensures Contains(a + b, sub)
    decreases |a|
  {
    if StartsWith(a, sub) {
      assert (a + b)[..|sub|] == a[..|sub|];
    } else {
      assert (a + b)[1..] == a[1..] + b;
      ContainsExtend(a[1..], b, sub);
    }
  }

  /** A string holds every one of its windows. */
  lemma ContainsMiddle(a: string, sub: string, b: string)
    ensures Contains(a + sub + b, sub)
  {
    var s := a + sub + b;
    assert OccursAt(s, sub, |a|) by { assert s[|a|..|a| + |sub|] == sub; }
    ContainsAt(s, sub);
  }

  // ---------------------------------------------------------------------------
  // Case: `str.lower()` on ASCII letters.

  predicate IsUpper(c: char) { 'A' <= c <= 'Z' }

  function LowerChar(c: char): (r: char)
    ensures !IsUpper(r)
    ensures !IsUpper(c) ==> r == c
  {
    if IsUpper(c) then (c as int + 32) as char else c
  }

  predicate IsLowerCase(s: string) {
    forall i :: 0 <= i < |s| ==> !IsUpper(s[i])
  }

  /** `s.lower()`: same length, every letter lowered, nothing upper-case left. */
  function Lower(s: string): (r: string)
    ensures |r| == |s|
    ensures forall i :: 0 <= i < |s| ==> r[i] == LowerChar(s[i])
    ensures IsLowerCase(r)
  {
    seq(|s|, i requires 0 <= i < |s| => LowerChar(s[i]))
  }

  // ---------------------------------------------------------------------------
  // Whitespace: `str.strip()` with the ASCII characters for which `str.isspace()` holds.

  predicate IsSpace(c: char) {
    c == ' ' || c == '\t' || c == '\n' || c == '\r' || c == '\U{B}' || c == '\U{C}'
    || c == '\U{1C}' || c == '\U{1D}' || c == '\U{1E}' || c == '\U{1F}'
  }

  /** `s.lstrip()`: the longest suffix of `s` that does not start with white space. */
  function LStrip(s: string): (r: string)
    ensures |r| <= |s| && forall i :: 0 <= i < |r| ==> r[i] == s[|s| - |r| + i]
    ensures |r| == 0 || !IsSpace(r[0])
  {
    if |s| > 0 && IsSpace(s[0]) then LStrip(s[1..]) else s
  }

  /** `lstrip` removes white space only. */
  lemma {:induction false} LStripRemovesSpace(s: string)
    ensures forall i :: 0 <= i < |s| - |LStrip(s)| ==> IsSpace(s[i])
    decreases |s|
  {
    if |s| > 0 && IsSpace(s[0]) {
      LStripRemovesSpace(s[1..]);
      assert forall i :: 1 <= i < |s| ==> s[i] == s[1..][i - 1];
    }
  }

  /** `s.rstrip()`: the longest prefix of `s` that does not end with white space. */
  function RStrip(s: string): (r: string)
    ensures |r| <= |s| && forall i :: 0 <= i < |r| ==> r[i] == s[i]
    ensures |r| == 0 || !IsSpace(r[|r| - 1])
  {
    if |s| > 0 && IsSpace(s[|s| - 1]) then RStrip(s[..|s| - 1]) else s
  }

  /** `rstrip` removes white space only. */
  lemma {:induction false} RStripRemovesSpace(s: string)
    ensures forall i :: |RStrip(s)| <= i < |s| ==> IsSpace(s[i])
    decreases |s|
  {
    if |s| > 0 && IsSpace(s[|s| - 1]) {
      RStripRemovesSpace(s[..|s| - 1]);
    }
  }

  /** `s.strip()`: no white space at either end (`StripWindow` places it in `s`). */
  function Strip(s: string): (r: string)
    ensures |r| <= |s|
    ensures |r| == 0 || (!IsSpace(r[0]) && !IsSpace(r[|r| - 1]))
  {
    RStrip(LStrip(s))
  }

  /** `s.strip()` is the window `s[a..b]`: only white space lies outside it, and it
      neither starts nor ends with white space. */
  lemma StripWindow(s: string) returns (a: nat, b: nat)
    ensures a <= b <= |s| && Strip(s) == s[a..b]
    ensures forall i :: 0 <= i < a ==> IsSpace(s[i])
    ensures forall i :: b <= i < |s| ==> IsSpace(s[i])
    ensures a == |s| || !IsSpace(s[a])
    ensures a == b || !IsSpace(s[b - 1])
  {
    LStripRemovesSpace(s);
    a, b := RStripWindow(s, LStrip(s));
  }

  /** `m.rstrip()`, for the suffix `m` that `s.lstrip()` leaves, as a window of `s`. */
  lemma RStripWindow(s: string, m: string) returns (a: nat, b: nat)
    requires |m| <= |s| && (forall i :: 0 <= i < |m| ==> m[i] == s[|s| - |m| + i])
    requires |m| == 0 || !IsSpace(m[0])
    requires forall i :: 0 <= i < |s| - |m| ==> IsSpace(s[i])
    ensures a <= b <= |s| && RStrip(m) == s[a..b]
    ensures forall i :: 0 <= i < a ==> IsSpace(s[i])
    ensures forall i :: b <= i < |s| ==> IsSpace(s[i])
    ensures a == |s| || !IsSpace(s[a])
    ensures a == b || !IsSpace(s[b - 1])
  {
    RStripRemovesSpace(m);
    a, b := ComposeWindow(s, m, RStrip(m));
  }

  /** A prefix `r` of a suffix `m` of `s` is a window of `s`; white space before `m` and
      after `r` becomes white space outside the window. */
  lemma ComposeWindow(s: string, m: string, r: string) returns (a: nat, b: nat)
    requires |m| <= |s| && (forall i :: 0 <= i < |m| ==> m[i] == s[|s| - |m| + i])
    requires |m| == 0 || !IsSpace(m[0])
    requires forall i :: 0 <= i < |s| - |m| ==> IsSpace(s[i])
    requires |r| <= |m| && (forall i :: 0 <= i < |r| ==> r[i] == m[i])
    requires |r| == 0 || !IsSpace(r[|r| - 1])
    requires forall i :: |r| <= i < |m| ==> IsSpace(m[i])
    ensures a <= b <= |s| && r == s[a..b]
    ensures forall i :: 0 <= i < a ==> IsSpace(s[i])
    ensures forall i :: b <= i < |s| ==> IsSpace(s[i])
    ensures a == |s| || !IsSpace(s[a])
    ensures a == b || !IsSpace(s[b - 1])
  {
    a := |s| - |m|;
    b := a + |r|;
    assert r == s[a..b] by {
      forall j | 0 <= j < |r| ensures r[j] == s[a..b][j] {
        assert m[j] == s[a + j];
      }
    }
    forall i | b <= i < |s| ensures IsSpace(s[i]) {
      assert m[i - a] == s[i];
    }
    if a < |s| {
      assert m[0] == s[a];
    }
    if a < b {
      assert m[|r| - 1] == s[b - 1];
    }
  }

  /** A window of a string holds no character the string does not. */
  lemma WindowWithout(s: string, a: nat, b: nat, c: char)
    requires a <= b <= |s| && c !in s
    ensures c !in s[a..b]
  {
    assert forall i :: 0 <= i < b - a ==> s[a..b][i] == s[a + i];
  }

  /** `s.lstrip(chars)`: drop leading characters that belong to `chars`. */
  function LStripChars(s: string, chars: set<char>): (r: string)
    ensures |r| <= |s|
    ensures |r| == 0 || r[0] !in chars
  {
    if |s| > 0 && s[0] in chars then LStripChars(s[1..], chars) else s
  }

  /** `lstrip(chars)` leaves a suffix of `s` and removes characters of `chars` only. */
  lemma {:induction false} LStripCharsRemoves(s: string, chars: set<char>)
    ensures forall i :: 0 <= i < |LStripChars(s, chars)| ==>
              LStripChars(s, chars)[i] == s[|s| - |LStripChars(s, chars)| + i]
    ensures forall i :: 0 <= i < |s| - |LStripChars(s, chars)| ==> s[i] in chars
    decreases |s|
  {
    if |s| > 0 && s[0] in chars {
      var r := LStripChars(s[1..], chars);
      LStripCharsRemoves(s[1..], chars);
      forall i | 0 <= i < |r| ensures r[i] == s[|s| - |r| + i] {
        assert r[i] == s[1..][|s[1..]| - |r| + i];
      }
      assert forall i :: 1 <= i < |s| ==> s[i] == s[1..][i - 1];
    }
  }

  /** `item` is `s[a..b]` and is what `s.lstrip(chars).strip()` leaves: `s[..d]` is the
      longest prefix of characters of `chars`, `s[d..a]` the white space after it, `s[b..]`
      white space only, and the window neither starts nor ends with white space. */
  predicate StripCharsWindow(s: string, chars: set<char>, d: nat, a: nat, b: nat, item: string) {
    d <= a <= b <= |s| && item == s[a..b]
    && (forall i :: 0 <= i < d ==> s[i] in chars)
    && (d == |s| || s[d] !in chars)
    && (forall i :: d <= i < a ==> IsSpace(s[i]))
    && (forall i :: b <= i < |s| ==> IsSpace(s[i]))
    && (a == |s| || !IsSpace(s[a]))
    && (a == b || !IsSpace(s[b - 1]))
  }

  /** `s.lstrip(chars).strip()` is the window `StripCharsWindow` describes. */
  lemma LStripCharsStripWindow(s: string, chars: set<char>) returns (d: nat, a: nat, b: nat)
    ensures StripCharsWindow(s, chars, d, a, b, Strip(LStripChars(s, chars)))
  {
    var l := LStripChars(s, chars);
    LStripCharsRemoves(s, chars);
    d, a, b := StripSuffixWindow(s, chars, l);
  }

  /** `l.strip()`, for the suffix `l` that `s.lstrip(chars)` leaves, is that window. */
  lemma StripSuffixWindow(s: string, chars: set<char>, l: string) returns (d: nat, a: nat, b: nat)
    requires |l| <= |s| && (forall i :: 0 <= i < |l| ==> l[i] == s[|s| - |l| + i])
    requires |l| == 0 || l[0] !in chars
    requires forall i :: 0 <= i < |s| - |l| ==> s[i] in chars
    ensures StripCharsWindow(s, chars, d, a, b, Strip(l))
  {
    var a', b' := StripWindow(l);
    d, a, b := ShiftWindow(s, chars, l, a', b', Strip(l));
  }

  /** A window of the suffix `l` that `lstrip(chars)` leaves, shifted to a window of `s`. */
  lemma ShiftWindow(s: string, chars: set<char>, l: string, a': nat, b': nat, item: string)
    returns (d: nat, a: nat, b: nat)
    requires |l| <= |s| && (forall i :: 0 <= i < |l| ==> l[i] == s[|s| - |l| + i])
    requires |l| == 0 || l[0] !in chars
    requires forall i :: 0 <= i < |s| - |l| ==> s[i] in chars
    requires a' <= b' <= |l| && item == l[a'..b']
    requires forall i :: 0 <= i < a' ==> IsSpace(l[i])
    requires forall i :: b' <= i < |l| ==> IsSpace(l[i])
    requires a' == |l| || !IsSpace(l[a'])
    requires a' == b' || !IsSpace(l[b' - 1])
    ensures StripCharsWindow(s, chars, d, a, b, item)
  {
    d := |s| - |l|;
    a, b := d + a', d + b';
    assert s[a..b] == l[a'..b'] by {
      forall j | 0 <= j < b - a ensures s[a..b][j] == l[a'..b'][j] {
        assert l[a' + j] == s[a + j];
      }
    }
    forall i | d <= i < a ensures IsSpace(s[i]) {
      assert l[i - d] == s[i];
    }
    forall i | b <= i < |s| ensures IsSpace(s[i]) {
      assert l[i - d] == s[i];
    }
    if d < |s| {
      assert l[0] == s[d];
    }
    if a < |s| {
      assert l[a'] == s[a];
    }
    if a < b {
      assert l[b' - 1] == s[b - 1];
    }
  }

  /** The window is determined by `s` and `chars`: no two items fit it. */
  lemma StripCharsWindowUnique(s: string, chars: set<char>, d: nat, a: nat, b: nat, x: string,
                               d': nat, a': nat, b': nat, y: string)
    requires StripCharsWindow(s, chars, d, a, b, x) && StripCharsWindow(s, chars, d', a', b', y)
    ensures d == d' && a == a' && b == b' && x == y
  {
    if d < d' { assert false; }
    if d' < d { assert false; }
    if a < a' { assert false; }
    if a' < a { assert false; }
    if b < b' { assert false; }
    if b' < b { assert false; }
  }

  // ---------------------------------------------------------------------------
  // `s.split(c)` for a one-character separator, and `sep.join(parts)`.

  /** `s.split(c)`: never empty (`"".split(c) == [""]`), and no piece holds the separator. */
  function Split(s: string, c: char): (r: seq<string>)
    ensures |r| >= 1
    ensures forall i :: 0 <= i < |r| ==> c !in r[i]
    decreases |s|
  {
    if |s| == 0 then [""]
    else
      var rest := Split(s[1..], c);
      if s[0] == c then [""] + rest
      else [[s[0]] + rest[0]] + rest[1..]
  }

  /** `sep.join(parts)`. */
  function Join(sep: string, parts: seq<string>): string
    decreases |parts|
  {
    if |parts| == 0 then ""
    else if |parts| == 1 then parts[0]
    else parts[0] + sep + Join(sep, parts[1..])
  }

  /** The last piece of a join follows the join of the others and a separator. */
  lemma {:induction false} JoinLast(sep: string, parts: seq<string>)
    requires |parts| >= 2
    ensures Join(sep, parts) == Join(sep, parts[..|parts| - 1]) + sep + parts[|parts| - 1]
    decreases |parts|
  {
    if |parts| > 2 {
      JoinLast(sep, parts[1..]);
      assert parts[1..][..|parts| - 2] == parts[..|parts| - 1][1..];
      ConcatAssoc(parts[0] + sep, Join(sep, parts[..|parts| - 1][1..]) + sep, parts[|parts| - 1]);
    } else {
      assert parts[..1] == [parts[0]];
    }
  }

  /** Every piece of a join occurs in it. */
  lemma {:induction false} JoinHasPart(sep: string, parts: seq<string>, k: nat)
    requires k < |parts|
    ensures Contains(Join(sep, parts), parts[k])
    decreases |parts|
  {
    if |parts| == 1 {
      ContainsMiddle("", parts[0], "");
      assert "" + parts[0] + "" == parts[0];
    } else if k == 0 {
      ContainsMiddle("", parts[0], sep + Join(sep, parts[1..]));
      ConcatAssoc(parts[0], sep, Join(sep, parts[1..]));
      assert "" + parts[0] + (sep + Join(sep, parts[1..])) == Join(sep, parts);
    } else {
      JoinHasPart(sep, parts[1..], k - 1);
      ContainsAfter(parts[0] + sep, Join(sep, parts[1..]), parts[k]);
    }
  }

  /** Text in front of a string keeps its substrings. */
  lemma {:induction false} ContainsAfter(a: string, b: string, sub: string)
    requires Contains(b, sub)
    ensures Contains(a + b, sub)
    decreases |a|
  {
    if |a| > 0 {
      assert (a + b)[1..] == a[1..] + b;
      ContainsAfter(a[1..], b, sub);
    } else {
      assert a + b == b;
    }
  }

  /** Joining the pieces of a split with the separator gives back the string. */
  lemma {:induction false} JoinSplit(s: string, c: char)
    ensures Join([c], Split(s, c)) == s
    decreases |s|
  {
    if |s| > 0 {
      var rest := Split(s[1..], c);
      JoinSplit(s[1..], c);
      if s[0] == c {
        assert ([""] + rest)[1..] == rest;
        assert s == [c] + s[1..];
      } else if |rest| == 1 {
        assert s == [s[0]] + s[1..];
      } else {
        var parts := [[s[0]] + rest[0]] + rest[1..];
        assert parts[1..] == rest[1..];
        assert Join([c], rest) == rest[0] + [c] + Join([c], rest[1..]);
        assert s == [s[0]] + s[1..];
      }
    }
  }

  /** A string without the separator splits into itself. */
  lemma {:induction false} SplitWithout(a: string, c: char)
    requires c !in a
    ensures Split(a, c) == [a]
    decreases |a|
  {
    if |a| > 0 {
      SplitWithout(a[1..], c);
      assert [a[0]] + a[1..] == a;
    }
  }

  /** Splitting `a + [c] + b`, where `a` has no separator, yields `a` and then the pieces of `b`. */
  lemma {:induction false} SplitAfter(a: string, b: string, c: char)
    requires c !in a
    ensures Split(a + [c] + b, c) == [a] + Split(b, c)
    decreases |a|
  {
    var s := a + [c] + b;
    if |a| == 0 {
      assert s[1..] == b;
    } else {
      assert s[1..] == a[1..] + [c] + b;
      SplitAfter(a[1..], b, c);
      assert [a[0]] + a[1..] == a;
    }
  }

  /** Splitting the join of pieces that hold no separator gives back the pieces. */
  lemma {:induction false} SplitJoin(parts: seq<string>, c: char)
    requires |parts| >= 1
    requires forall i :: 0 <= i < |parts| ==> c !in parts[i]
    ensures Split(Join([c], parts), c) == parts
    decreases |parts|
  {
    if |parts| == 1 {
      SplitWithout(parts[0], c);
    } else {
      SplitJoin(parts[1..], c);
      SplitAfter(parts[0], Join([c], parts[1..]), c);
      assert [parts[0]] + parts[1..] == parts;
    }
  }

  // ---------------------------------------------------------------------------
  // Python's `<` on strings: lexicographic by code point.

  predicate Less(a: string, b: string)
    decreases |a|
  {
    if |a| == 0 then |b| > 0
    else if |b| == 0 then false
    else if a[0] != b[0] then a[0] < b[0]
    else Less(a[1..], b[1..])
  }

  lemma {:induction false} LessIrreflexive(a: string)
    ensures !Less(a, a)
    decreases |a|
  {
    if |a| > 0 { LessIrreflexive(a[1..]); }
  }

  lemma {:induction false} LessTransitive(a: string, b: string, c: string)
    requires Less(a, b) && Less(b, c)
    ensures Less(a, c)
    decreases |a|
  {
    if |a| > 0 && a[0] == b[0] && b[0] == c[0] {
      LessTransitive(a[1..], b[1..], c[1..]);
    }
  }

  lemma {:induction false} LessTotal(a: string, b: string)
    requires a != b
    ensures Less(a, b) || Less(b, a)
    decreases |a|
  {
    if |a| > 0 && |b| > 0 && a[0] == b[0] {
      assert a == [a[0]] + a[1..] && b == [b[0]] + b[1..];
      LessTotal(a[1..], b[1..]);
    }
  }

  // ---------------------------------------------------------------------------
  // `\w`: letters, digits and the underscore (ASCII only).

  predicate IsWordChar(c: char) {
    ('a' <= c <= 'z') || ('A' <= c <= 'Z') || ('0' <= c <= '9') || c == '_'
  }

  /** `re.sub(r'[^\w]', '', s)`: the word characters of `s`, in order. */
  function KeepWordChars(s: string): (r: string)
    ensures |r| <= |s|
    ensures forall i :: 0 <= i < |r| ==> IsWordChar(r[i])
    ensures forall c :: c in s && IsWordChar(c) ==> c in r
  {
    if |s| == 0 then ""
    else if IsWordChar(s[0]) then [s[0]] + KeepWordChars(s[1..])
    else KeepWordChars(s[1..])
  }
}
