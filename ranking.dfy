/** Ranking of an explore's fields (`analyze_lookml`, lines 395-397): Python's stable
    `sorted(..., key=score, reverse=True)` followed by the cut to TOP_N_FIELDS. */
module Ranking {
  import opened History
  import Strings

  /** TOP_N_FIELDS. */
  const TopN: nat := 15

  /** Scores never increase along the sequence. */
  predicate SortedDesc(t: seq<FieldScore>) {
    forall i, j :: 0 <= i < j < |t| ==> t[i].score >= t[j].score
  }

  /** The entries of `t` whose score is `v`, in order. */
  function WithScore(t: seq<FieldScore>, v: int): seq<FieldScore>
  {
    if |t| == 0 then []
    else (if t[0].score == v then [t[0]] else []) + WithScore(t[1..], v)
  }

  /** The entries of score `v` are entries of `t` with score `v`. */
  lemma {:induction false} WithScoreMember(t: seq<FieldScore>, v: int, x: FieldScore)
    requires x in WithScore(t, v)
    ensures x.score == v && x in t
  {
    if |t| > 0 && !(t[0].score == v && x == t[0]) {
      WithScoreMember(t[1..], v, x);
    }
  }

  /** Place `x` before the first entry that does not score more than it. */
  function Insert(x: FieldScore, t: seq<FieldScore>): seq<FieldScore>
  {
    if |t| == 0 || x.score >= t[0].score then [x] + t
    else [t[0]] + Insert(x, t[1..])
  }

  /** Insertion adds `x` and keeps every entry of `t`. */
  lemma {:induction false} InsertPerm(x: FieldScore, t: seq<FieldScore>)
    ensures |Insert(x, t)| == |t| + 1
    ensures multiset(Insert(x, t)) == multiset(t) + multiset{x}
  {
    if !(|t| == 0 || x.score >= t[0].score) {
      InsertPerm(x, t[1..]);
      assert t == [t[0]] + t[1..];
    }
  }

  /** The tail of a descending sequence is descending. */
  lemma SortedDescTail(t: seq<FieldScore>)
    requires |t| > 0 && SortedDesc(t)
    ensures SortedDesc(t[1..])
  {
    forall i, j | 0 <= i < j < |t| - 1 ensures t[1..][i].score >= t[1..][j].score {
      assert t[1..][i] == t[i + 1] && t[1..][j] == t[j + 1];
    }
  }

  /** A head that scores at least every entry of a descending sequence keeps it descending. */
  lemma ConsSortedDesc(y: FieldScore, t: seq<FieldScore>)
    requires SortedDesc(t)
    requires forall k :: 0 <= k < |t| ==> t[k].score <= y.score
    ensures SortedDesc([y] + t)
  {
    var r := [y] + t;
    forall i, j | 0 <= i < j < |r| ensures r[i].score >= r[j].score {
      assert r[j] == t[j - 1];
      if i > 0 { assert r[i] == t[i - 1]; }
    }
  }

  /** Insertion into a descending sequence keeps it descending. */
  lemma {:induction false} InsertSorted(x: FieldScore, t: seq<FieldScore>)
    requires SortedDesc(t)
    ensures SortedDesc(Insert(x, t))
  {
    if |t| == 0 || x.score >= t[0].score {
      ConsSortedDesc(x, t);
    } else {
      var rest := Insert(x, t[1..]);
      SortedDescTail(t);
      InsertSorted(x, t[1..]);
      InsertPerm(x, t[1..]);
      forall k | 0 <= k < |rest| ensures rest[k].score <= t[0].score {
        assert rest[k] in multiset(rest);
        if rest[k] != x {
          assert rest[k] in multiset(t[1..]);
          var m :| 0 <= m < |t| - 1 && t[1..][m] == rest[k];
          assert t[m + 1] == rest[k];
        }
      }
      ConsSortedDesc(t[0], rest);
    }
  }

  /** The entries of score `v` in a sequence with a given head. */
  lemma WithScoreCons(y: FieldScore, t: seq<FieldScore>, v: int)
    ensures WithScore([y] + t, v) == (if y.score == v then [y] else []) + WithScore(t, v)
  {
    assert ([y] + t)[0] == y && ([y] + t)[1..] == t;
  }

  /** Insertion puts `x` first among the entries of its score. */
  lemma {:induction false} InsertStable(x: FieldScore, t: seq<FieldScore>, v: int)
    ensures WithScore(Insert(x, t), v) == (if x.score == v then [x] else []) + WithScore(t, v)
  {
    if |t| == 0 || x.score >= t[0].score {
      WithScoreCons(x, t, v);
    } else {
      var rest := Insert(x, t[1..]);
      InsertStable(x, t[1..], v);
      WithScoreCons(t[0], rest, v);
      assert t == [t[0]] + t[1..];
      WithScoreCons(t[0], t[1..], v);
      var px := if x.score == v then [x] else [];
      var p0 := if t[0].score == v then [t[0]] else [];
      assert px == [] || p0 == [];
      Strings.ConcatAssoc(p0, px, WithScore(t[1..], v));
      Strings.ConcatAssoc(px, p0, WithScore(t[1..], v));
    }
  }

  /** `sorted(s, key=score, reverse=True)`: insertion sort from the back, so an entry goes
      before the later entries that score the same. */
  function SortDesc(s: seq<FieldScore>): (r: seq<FieldScore>)
    ensures |r| == |s|
    ensures SortedDesc(r)
    ensures multiset(r) == multiset(s)
  {
    if |s| == 0 then []
    else
      var rest := SortDesc(s[1..]);
      InsertSorted(s[0], rest);
      InsertPerm(s[0], rest);
      ConsMultiset(s);
      Insert(s[0], rest)
  }

  /** The entries of a non-empty sequence are its head and the entries of its tail. */
  lemma ConsMultiset(s: seq<FieldScore>)
    requires |s| > 0
    ensures multiset(s) == multiset(s[1..]) + multiset{s[0]}
  {
    assert s == [s[0]] + s[1..];
  }

  /** The sort is stable: for every score, the entries with that score keep their order. */
  lemma {:induction false} SortDescStable(s: seq<FieldScore>, v: int)
    ensures WithScore(SortDesc(s), v) == WithScore(s, v)
  {
    if |s| > 0 {
      SortDescStable(s[1..], v);
      InsertStable(s[0], SortDesc(s[1..]), v);
    }
  }

  /** An entry is among the entries of its own score. */
  lemma {:induction false} InWithScore(t: seq<FieldScore>, x: FieldScore)
    requires x in t
    ensures x in WithScore(t, x.score)
  {
    if t[0] != x {
      InWithScore(t[1..], x);
    }
  }

  /** A stably ordered descending sequence is determined by its entries of each score:
      `SortDesc` is the only sequence sorted by descending score that keeps, for every
      score, the input order of the entries with that score. */
  lemma {:induction false} StableSortUnique(t: seq<FieldScore>, u: seq<FieldScore>)
    requires SortedDesc(t) && SortedDesc(u)
    requires forall v :: WithScore(t, v) == WithScore(u, v)
    ensures t == u
    decreases |t|
  {
    if |u| > 0 { InWithScore(u, u[0]); }
    if |t| > 0 { InWithScore(t, t[0]); }
    if |t| > 0 && |u| > 0 {
      var a, b := t[0].score, u[0].score;
      WithScoreMember(t, b, u[0]);
      WithScoreMember(u, a, t[0]);
      assert a == b;
      assert WithScore(t, a)[0] == t[0];
      assert WithScore(u, a)[0] == u[0];
      forall v
        ensures WithScore(t[1..], v) == WithScore(u[1..], v)
      {
        var p := if a == v then [t[0]] else [];
        assert WithScore(t, v) == p + WithScore(t[1..], v);
        assert WithScore(u, v) == p + WithScore(u[1..], v);
        assert WithScore(t[1..], v) == WithScore(t, v)[|p|..];
        assert WithScore(u[1..], v) == WithScore(u, v)[|p|..];
      }
      StableSortUnique(t[1..], u[1..]);
      assert t == [t[0]] + t[1..] && u == [u[0]] + u[1..];
    }
  }

  /** The entries of each score in a prefix are a prefix of that score's entries. */
  lemma {:induction false} WithScoreTake(t: seq<FieldScore>, k: nat, v: int)
    requires k <= |t|
    ensures WithScore(t[..k], v) <= WithScore(t, v)
    decreases k
  {
    if k > 0 {
      WithScoreTake(t[1..], k - 1, v);
      assert t[..k][1..] == t[1..][..k - 1];
    }
  }

  /** `[... for field, score in sorted_fields[:TOP_N_FIELDS]]`: at most 15 entries, in
      descending score, the start of the full ranking. */
  function TopFields(fs: ExploreScores): (r: ExploreScores)
    ensures |r| == Strings.Min(TopN, |fs|)
    ensures SortedDesc(r)
    ensures r == SortDesc(fs)[..|r|]
  {
    Strings.Take(SortDesc(fs), TopN)
  }

  /** The top fields are taken from the input (all of it when there are at most 15), and
      every entry cut off scores no more than every entry kept. */
  lemma TopFieldsCut(fs: ExploreScores)
    ensures multiset(TopFields(fs)) <= multiset(fs)
    ensures |fs| <= TopN ==> multiset(TopFields(fs)) == multiset(fs)
    ensures forall x, y :: x in TopFields(fs) && y in multiset(fs) - multiset(TopFields(fs)) ==> y.score <= x.score
  {
    var sorted := SortDesc(fs);
    var r := TopFields(fs);
    var k := |r|;
    assert r == sorted[..k];
    assert sorted == sorted[..k] + sorted[k..];
    assert multiset(fs) - multiset(r) == multiset(sorted[k..]);
    CutBelow(sorted, k);
  }

  /** In a descending sequence every entry before a cut scores at least every entry after it. */
  lemma CutBelow(t: seq<FieldScore>, k: nat)
    requires SortedDesc(t) && k <= |t|
    ensures forall x, y :: x in t[..k] && y in multiset(t[k..]) ==> y.score <= x.score
  {
    forall x, y | x in t[..k] && y in multiset(t[k..]) ensures y.score <= x.score {
      var i :| 0 <= i < k && t[..k][i] == x;
      assert y in t[k..];
      var j :| 0 <= j < |t| - k && t[k..][j] == y;
      assert t[i] == x && t[k + j] == y;
    }
  }

  /** Equal scores keep their first-seen order: the top fields of every score are the
      first fields of that score in the input. */
  lemma TopFieldsStable(fs: ExploreScores, v: int)
    ensures WithScore(TopFields(fs), v) <= WithScore(fs, v)
  {
    WithScoreTake(SortDesc(fs), |TopFields(fs)|, v);
    SortDescStable(fs, v);
  }

  /** Lines 395-397 without the rounding: the top fields of one model/explore. */
  function RankExplore(s: UsageScores, model: string, explore: string): (r: ExploreScores)
    ensures |r| <= TopN
    ensures SortedDesc(r)
    ensures model !in s ==> r == []
  {
    TopFields(ScoresOf(s, model, explore))
  }
}
