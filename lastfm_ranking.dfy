/** What the Last.fm spice-up does with similar tracks once it has them: the
    entry each one becomes, the key it is deduplicated by, the per-mode fetch
    breadth, the sort by score and the per-mode selection. */
module LastfmRanking {
  import opened Common
  import opened Sequences
  import opened LastfmRequests

  /** A value of the `allSimilarTracks` map. */
  datatype Recommendation = Recommendation(
    name: string, artist: string, url: string, score: real, mbid: Option<string>)

  /** `${artist.toLowerCase()}_${name.toLowerCase()}`: the lower-cased
      artist, an underscore, then the lower-cased title. */
  function Key(r: Recommendation): (k: string)
    ensures |k| == |r.artist| + 1 + |r.name|
    ensures k[|r.artist|] == '_'
    ensures forall i | 0 <= i < |r.artist| :: k[i] == LowerChar(r.artist[i])
    ensures forall i | 0 <= i < |r.name| :: k[|r.artist| + 1 + i] == LowerChar(r.name[i])
  {
    Lower(r.artist) + "_" + Lower(r.name)
  }

  /** The entry made from the similar track at position `index` of one seed's
      list: missing text fields become "", and a missing score becomes
      `100 - index`. */
  function Lift(t: SimilarTrack, index: nat): (r: Recommendation)
    ensures r.name == t.name.GetOr("") && r.artist == t.artist.GetOr("") && r.url == t.url.GetOr("")
    ensures r.mbid == t.mbid
    ensures t.matchScore.Some? ==> r.score == t.matchScore.value
    ensures t.matchScore.None? ==> r.score == 100.0 - index as real
  {
    Recommendation(
      t.name.GetOr(""), t.artist.GetOr(""), t.url.GetOr(""),
      if t.matchScore.Some? then t.matchScore.value else 100.0 - index as real,
      t.mbid)
  }

  /** The entries of one seed's similar list, in rank order. */
  function LiftAll(tracks: seq<SimilarTrack>): (rs: seq<Recommendation>)
    ensures |rs| == |tracks|
    ensures forall i | 0 <= i < |tracks| :: rs[i] == Lift(tracks[i], i)
  {
    seq(|tracks|, i requires 0 <= i < |tracks| => Lift(tracks[i], i))
  }

  /** The key of an entry depends only on the lower-cased artist and name of
      the similar track it was made from, never on its score or position. */
  lemma KeyOfLift(t: SimilarTrack, i: nat, j: nat)
    ensures Key(Lift(t, i)) == Lower(t.artist.GetOr("")) + "_" + Lower(t.name.GetOr(""))
    ensures Key(Lift(t, i)) == Key(Lift(t, j))
  {
  }

  /** Two different tracks can share a key because "_" may occur in names:
      artist "a_b" with title "c" and artist "a" with title "b_c". */
  lemma KeysCanCollide()
    ensures Key(Recommendation("c", "a_b", "", 0.0, None)) == Key(Recommendation("b_c", "a", "", 0.0, None))
  {
    assert Lower("a_b") == "a_b" && Lower("c") == "c";
    assert Lower("a") == "a" && Lower("b_c") == "b_c";
  }

  /** `getDiversitySettings(mode).similarTracksLimit` */
  function SimilarTracksLimit(mode: Mode): (n: nat)
    ensures mode == Strict ==> n == 10
    ensures mode == Normal ==> n == 20
    ensures mode == Diverse ==> n == 50
  {
    match mode
    case Strict => 10
    case Normal => 20
    case Diverse => 50
  }

  /** The breadth grows from strict to diverse and stays below the 1000 cap of
      `getSimilarTracks`, so the request sends it unchanged. */
  lemma BreadthOrderedAndUnclamped(artist: string, track: string)
    requires artist != "" && track != ""
    ensures SimilarTracksLimit(Strict) < SimilarTracksLimit(Normal) < SimilarTracksLimit(Diverse)
    ensures forall m: Mode ::
      SimilarRequest(artist, track, Some(SimilarTracksLimit(m))).value.limit == SimilarTracksLimit(m)
  {
  }

  // ---------------------------------------------------------------------------
  // Sorting by score, higher first: `sort((a, b) => b.match - a.match)`, which
  // is stable.

  ghost predicate SortedDesc(s: seq<Recommendation>) {
    forall i, j | 0 <= i < j < |s| :: s[i].score >= s[j].score
  }

  function InsertByScore(x: Recommendation, s: seq<Recommendation>): (r: seq<Recommendation>)
    ensures multiset(r) == multiset(s) + multiset{x}
    ensures |r| == |s| + 1
    decreases |s|
  {
    if s == [] || s[0].score <= x.score then [x] + s
    else
      assert s == [s[0]] + s[1..];
      [s[0]] + InsertByScore(x, s[1..])
  }

  /** An entry scoring at least as much as every entry of a sorted list can
      go in front of it. */
  lemma ConsSorted(h: Recommendation, rest: seq<Recommendation>)
    requires SortedDesc(rest)
    requires forall j | 0 <= j < |rest| :: rest[j].score <= h.score
    ensures SortedDesc([h] + rest)
  {
    var r := [h] + rest;
    forall i, j | 0 <= i < j < |r| ensures r[i].score >= r[j].score {
      assert r[j] == rest[j - 1];
      if i > 0 {
        assert r[i] == rest[i - 1];
      }
    }
  }

  lemma {:induction false} InsertByScoreSorted(x: Recommendation, s: seq<Recommendation>)
    requires SortedDesc(s)
    ensures SortedDesc(InsertByScore(x, s))
    ensures s != [] ==> forall i | 0 <= i < |s| + 1 ::
      InsertByScore(x, s)[i].score <= if s[0].score <= x.score then x.score else s[0].score
    decreases |s|
  {
    var r := InsertByScore(x, s);
    if s == [] || s[0].score <= x.score {
      assert r == [x] + s;
      forall j | 0 <= j < |s| ensures s[j].score <= x.score {
        if s != [] && j > 0 { assert s[0].score >= s[j].score; }
      }
      ConsSorted(x, s);
      forall i | 0 <= i < |r| ensures r[i].score <= x.score {
        if i > 0 { assert r[i] == s[i - 1]; }
      }
    } else {
      var rest := InsertByScore(x, s[1..]);
      InsertByScoreSorted(x, s[1..]);
      assert r == [s[0]] + rest;
      forall j | 0 <= j < |rest| ensures rest[j].score <= s[0].score {
        if s[1..] != [] {
          assert s[1..][0] == s[1];
          assert s[0].score >= s[1].score;
        }
      }
      ConsSorted(s[0], rest);
      forall i | 0 <= i < |r| ensures r[i].score <= s[0].score {
        if i > 0 { assert r[i] == rest[i - 1]; }
      }
    }
  }

  /** The pool sorted by score, higher first; equal scores keep their order. */
  function SortByScore(s: seq<Recommendation>): (r: seq<Recommendation>)
    ensures multiset(r) == multiset(s)
    ensures |r| == |s|
    ensures SortedDesc(r)
    decreases |s|
  {
    if s == [] then []
    else
      assert s == [s[0]] + s[1..];
      InsertByScoreSorted(s[0], SortByScore(s[1..]));
      InsertByScore(s[0], SortByScore(s[1..]))
  }

  function ScoreIs(v: real): Recommendation -> bool {
    (r: Recommendation) => r.score == v
  }

  lemma {:induction false} InsertByScoreStable(x: Recommendation, s: seq<Recommendation>, v: real)
    ensures Filter(InsertByScore(x, s), ScoreIs(v)) ==
      (if x.score == v then [x] else []) + Filter(s, ScoreIs(v))
    decreases |s|
  {
    if s == [] || s[0].score <= x.score {
      assert ([x] + s)[1..] == s;
    } else {
      InsertByScoreStable(x, s[1..], v);
      var rest := InsertByScore(x, s[1..]);
      assert ([s[0]] + rest)[1..] == rest;
    }
  }

  /** The sort is stable: the entries with any one score appear in the same
      relative order before and after it. */
  lemma {:induction false} SortByScoreStable(s: seq<Recommendation>, v: real)
    ensures Filter(SortByScore(s), ScoreIs(v)) == Filter(s, ScoreIs(v))
    decreases |s|
  {
    if s != [] {
      SortByScoreStable(s[1..], v);
      InsertByScoreStable(s[0], SortByScore(s[1..]), v);
    }
  }

  // ---------------------------------------------------------------------------
  // applyDiversityFilter

  predicate IsStrictMatch(r: Recommendation) { r.score >= 0.5 }
  predicate IsHighMatch(r: Recommendation) { r.score >= 0.3 }
  predicate IsMediumMatch(r: Recommendation) { 0.1 <= r.score < 0.3 }

  /** `Math.floor(limit * 0.7)`, read in exact arithmetic: the largest count
      that is at most seven tenths of the limit. */
  function HighQuota(limit: nat): (h: nat)
    ensures 10 * h <= 7 * limit < 10 * h + 10
  {
    (7 * limit) / 10
  }

  /** `Math.ceil(limit * 0.3)`, read in exact arithmetic: the smallest count
      that is at least three tenths of the limit. */
  function MediumQuota(limit: nat): (m: nat)
    ensures 10 * m - 10 < 3 * limit <= 10 * m
  {
    (3 * limit + 9) / 10
  }

  /** The two quotas of the normal mode split the limit exactly, so the final
      `slice(0, limit)` of that branch never cuts anything. */
  lemma QuotasSplitLimit(limit: nat)
    ensures HighQuota(limit) + MediumQuota(limit) == limit
    ensures 10 * HighQuota(limit) <= 7 * limit < 10 * HighQuota(limit) + 10
    ensures 10 * MediumQuota(limit) - 10 < 3 * limit <= 10 * MediumQuota(limit)
  {
  }

  /** `applyDiversityFilter(tracks, mode, limit)` */
  function ApplyDiversityFilter(tracks: seq<Recommendation>, mode: Mode, limit: nat): (r: seq<Recommendation>)
    ensures |r| <= limit
    ensures mode == Strict ==> forall i | 0 <= i < |r| :: r[i].score >= 0.5
    ensures mode == Normal ==> forall i | 0 <= i < |r| :: r[i].score >= 0.1
  {
    match mode
    case Strict => Take(Filter(tracks, IsStrictMatch), limit)
    case Normal =>
      var high := Take(Filter(tracks, IsHighMatch), HighQuota(limit));
      var medium := Take(Filter(tracks, IsMediumMatch), MediumQuota(limit));
      assert forall i | 0 <= i < |high + medium| :: (high + medium)[i].score >= 0.1 by {
        forall i | 0 <= i < |high + medium| ensures (high + medium)[i].score >= 0.1 {
          if i < |high| {
            assert (high + medium)[i] == Filter(tracks, IsHighMatch)[i];
          } else {
            assert (high + medium)[i] == Filter(tracks, IsMediumMatch)[i - |high|];
          }
        }
      }
      Take(high + medium, limit)
    case Diverse => Take(tracks, limit)
  }

  // ---------------------------------------------------------------------------
  // The selection applied to a pool sorted by score

  function ScoreGe(a: Recommendation, b: Recommendation): bool {
    a.score >= b.score
  }

  lemma SortedDescChain(s: seq<Recommendation>)
    ensures SortedDesc(s) <==> Chain(s, ScoreGe)
  {
  }

  /** Deleting entries from a sorted list keeps it sorted. */
  lemma SubseqSorted(a: seq<Recommendation>, b: seq<Recommendation>)
    requires IsSubseq(a, b) && SortedDesc(b)
    ensures SortedDesc(a)
  {
    SortedDescChain(a);
    SortedDescChain(b);
    SubseqChain(a, b, ScoreGe);
  }

  /** In a sorted list the entries scoring at least `t` form a prefix. */
  function SplitAt(s: seq<Recommendation>, t: real): (k: nat)
    requires SortedDesc(s)
    ensures k <= |s|
    ensures forall i | 0 <= i < k :: s[i].score >= t
    ensures forall i | k <= i < |s| :: s[i].score < t
    decreases |s|
  {
    if s == [] || s[0].score < t then 0
    else
      var k := 1 + SplitAt(s[1..], t);
      assert forall i | 1 <= i < |s| :: s[i] == s[1..][i - 1];
      k
  }

  /** On a sorted pool, the normal selection is a subsequence of the pool: the
      high matches it takes all come before the medium matches it takes. */
  lemma NormalOnSortedIsSubseq(s: seq<Recommendation>, limit: nat)
    requires SortedDesc(s)
    ensures IsSubseq(ApplyDiversityFilter(s, Normal, limit), s)
  {
    var k := SplitAt(s, 0.3);
    FilterPrefix(s, k, IsHighMatch);
    FilterSkip(s, k, IsMediumMatch);
    var s1, s2 := s[..k], s[k..];
    var high := Take(s1, HighQuota(limit));
    var medium := Take(Filter(s2, IsMediumMatch), MediumQuota(limit));
    TakeIsSubseq(s1, HighQuota(limit));
    TakeIsSubseq(Filter(s2, IsMediumMatch), MediumQuota(limit));
    FilterIsSubseq(s2, IsMediumMatch);
    SubseqTrans(medium, Filter(s2, IsMediumMatch), s2);
    SubseqConcat(high, s1, medium, s2);
    assert s1 + s2 == s;
    TakeIsSubseq(high + medium, limit);
    assert ApplyDiversityFilter(s, Normal, limit) == Take(high + medium, limit);
    SubseqTrans(ApplyDiversityFilter(s, Normal, limit), high + medium, s);
  }

  /** On a pool sorted by score, the normal selection is the first
      `HighQuota(limit)` entries scoring 0.3 or more followed by the first
      `MediumQuota(limit)` entries scoring from 0.1 up to 0.3: `k` is where
      the scores drop below 0.3 and `m` where they drop below 0.1. */
  lemma NormalIsQuotaSplitOfSorted(s: seq<Recommendation>, limit: nat)
    requires SortedDesc(s)
    ensures SplitAt(s, 0.3) <= SplitAt(s, 0.1)
    ensures var k, m := SplitAt(s, 0.3), SplitAt(s, 0.1);
      ApplyDiversityFilter(s, Normal, limit) ==
        s[..Min(HighQuota(limit), k)] + s[k..m][..Min(MediumQuota(limit), m - k)]
  {
    var k, m := SplitAt(s, 0.3), SplitAt(s, 0.1);
    SplitAtMonotone(s, 0.3, 0.1);
    NormalOfSplit(s, limit, k, m);
  }

  /** The normal selection on any list whose scores stay at 0.3 or more
      before `k`, lie in [0.1, 0.3) from `k` to `m` and are below 0.1 after. */
  lemma NormalOfSplit(s: seq<Recommendation>, limit: nat, k: nat, m: nat)
    requires k <= m <= |s|
    requires forall i | 0 <= i < k :: s[i].score >= 0.3
    requires forall i | k <= i < m :: 0.1 <= s[i].score < 0.3
    requires forall i | m <= i < |s| :: s[i].score < 0.1
    ensures ApplyDiversityFilter(s, Normal, limit) ==
      s[..Min(HighQuota(limit), k)] + s[k..m][..Min(MediumQuota(limit), m - k)]
  {
    FilterPrefix(s, k, IsHighMatch);
    MediumMatchesBetween(s, k, m);
    QuotaSplitOfSlices(s, Filter(s, IsHighMatch), Filter(s, IsMediumMatch), k, m, limit);
  }

  /** The arithmetic of the normal branch on two slices of one list: the
      quotas take a prefix of each and the final cut to `limit` keeps both. */
  lemma QuotaSplitOfSlices<T>(s: seq<T>, highs: seq<T>, mediums: seq<T>, k: nat, m: nat, limit: nat)
    requires k <= m <= |s|
    requires highs == s[..k] && mediums == s[k..m]
    ensures Take(Take(highs, HighQuota(limit)) + Take(mediums, MediumQuota(limit)), limit) ==
      s[..Min(HighQuota(limit), k)] + s[k..m][..Min(MediumQuota(limit), m - k)]
  {
    var high, medium := Take(highs, HighQuota(limit)), Take(mediums, MediumQuota(limit));
    assert high == s[..k][..|high|] == s[..Min(HighQuota(limit), k)];
    QuotasSplitLimit(limit);
    assert |high + medium| <= limit;
  }

  /** A lower threshold splits a sorted pool no earlier than a higher one. */
  lemma SplitAtMonotone(s: seq<Recommendation>, hi: real, lo: real)
    requires SortedDesc(s) && lo <= hi
    ensures SplitAt(s, hi) <= SplitAt(s, lo)
  {
    var k, m := SplitAt(s, hi), SplitAt(s, lo);
    assert m < |s| ==> s[m].score < lo;
  }

  /** When the scores stay at 0.3 or more before `k`, lie in [0.1, 0.3) from
      `k` to `m` and stay below 0.1 after, the medium matches are exactly the
      entries from `k` to `m`. */
  lemma MediumMatchesBetween(s: seq<Recommendation>, k: nat, m: nat)
    requires k <= m <= |s|
    requires forall i | 0 <= i < k :: s[i].score >= 0.3
    requires forall i | k <= i < m :: 0.1 <= s[i].score < 0.3
    requires forall i | m <= i < |s| :: s[i].score < 0.1
    ensures Filter(s, IsMediumMatch) == s[k..m]
  {
    FilterSlice(s, k, m, IsMediumMatch);
  }

  /** Applied to a pool sorted by score, every mode selects at most `limit`
      entries, drawn from the pool in its order, so the result is still sorted. */
  lemma SelectionOnSorted(s: seq<Recommendation>, mode: Mode, limit: nat)
    requires SortedDesc(s)
    ensures IsSubseq(ApplyDiversityFilter(s, mode, limit), s)
    ensures SortedDesc(ApplyDiversityFilter(s, mode, limit))
    ensures |ApplyDiversityFilter(s, mode, limit)| <= limit
    ensures |ApplyDiversityFilter(s, mode, limit)| <= |s|
  {
    var r := ApplyDiversityFilter(s, mode, limit);
    match mode {
      case Strict =>
        TakeIsSubseq(Filter(s, IsStrictMatch), limit);
        FilterIsSubseq(s, IsStrictMatch);
        SubseqTrans(r, Filter(s, IsStrictMatch), s);
      case Normal =>
        NormalOnSortedIsSubseq(s, limit);
      case Diverse =>
        TakeIsSubseq(s, limit);
    }
    SubseqMembers(r, s);
    SubseqSorted(r, s);
  }

  /** On a sorted pool the strict selection is the top of the pool: a prefix
      of it, which stops short of `limit` only when no further entry scores
      0.5 or more. */
  lemma StrictIsTopOfSorted(s: seq<Recommendation>, limit: nat)
    requires SortedDesc(s)
    ensures ApplyDiversityFilter(s, Strict, limit) == s[..|ApplyDiversityFilter(s, Strict, limit)|]
    ensures |ApplyDiversityFilter(s, Strict, limit)| < limit ==>
      forall i | |ApplyDiversityFilter(s, Strict, limit)| <= i < |s| :: s[i].score < 0.5
  {
    var k := SplitAt(s, 0.5);
    FilterPrefix(s, k, IsStrictMatch);
  }

  /** The diverse selection is the top `limit` entries of the pool, and on a
      sorted pool neither other mode selects more. */
  lemma DiverseSelectsMost(s: seq<Recommendation>, limit: nat)
    requires SortedDesc(s)
    ensures ApplyDiversityFilter(s, Diverse, limit) == s[..Min(limit, |s|)]
    ensures |ApplyDiversityFilter(s, Strict, limit)| <= |ApplyDiversityFilter(s, Diverse, limit)|
    ensures |ApplyDiversityFilter(s, Normal, limit)| <= |ApplyDiversityFilter(s, Diverse, limit)|
  {
    SelectionOnSorted(s, Strict, limit);
    SelectionOnSorted(s, Normal, limit);
  }

  /** `n` copies of one entry. */
  function Repeat(r: Recommendation, n: nat): (s: seq<Recommendation>)
    ensures |s| == n && forall i | 0 <= i < n :: s[i] == r
  {
    seq(n, i => r)
  }

  /** The normal mode can select fewer entries than the strict one: with ten
      copies of an entry scoring 0.5 or more and a limit of 10, strict keeps
      all ten while normal keeps only its high quota of seven and finds no
      medium match. */
  lemma NormalCanSelectFewerThanStrict(r: Recommendation)
    requires r.score >= 0.5
    ensures |ApplyDiversityFilter(Repeat(r, 10), Strict, 10)| == 10
    ensures |ApplyDiversityFilter(Repeat(r, 10), Normal, 10)| == 7
  {
    var s := Repeat(r, 10);
    FilterAllOrNone(s, IsStrictMatch);
    FilterAllOrNone(s, IsHighMatch);
    FilterAllOrNone(s, IsMediumMatch);
    assert Filter(s, IsStrictMatch) == s;
    assert Filter(s, IsHighMatch) == s;
    assert Filter(s, IsMediumMatch) == [];
    assert HighQuota(10) == 7 && MediumQuota(10) == 3;
    assert |Take(s, 7) + Take([], 3)| == 7;
  }
}
