/**
 * Filtering and top-K selection: keep the fingerings that never move to a
 * higher string, score them, sort them by score and keep the best
 * `ScaleCutoff`. The score itself is a parameter.
 */
module Selection {
  import opened Notes

  /** No step of the fingering moves to a higher string index. */
  predicate Consistent(s: seq<Coordinate>) {
    forall i :: 1 <= i < |s| ==> s[i - 1].stringId >= s[i].stringId
  }

  /** The program's check: scans adjacent pairs and stops at the first that climbs. */
  method IsConsistent(s: seq<Coordinate>) returns (b: bool)
    ensures b <==> Consistent(s)
  {
    var i := 1;
    while i < |s|
      invariant 1 <= i
      invariant forall k :: 1 <= k < i && k < |s| ==> s[k - 1].stringId >= s[k].stringId
    {
      if s[i - 1].stringId < s[i].stringId {
        return false;
      }
      i := i + 1;
    }
    return true;
  }

  /** Consistency of adjacent pairs is consistency of all pairs: string indices never increase. */
  lemma ConsistentPairwise(s: seq<Coordinate>)
    ensures Consistent(s) <==> forall i, j :: 0 <= i <= j < |s| ==> s[i].stringId >= s[j].stringId
  {
    if Consistent(s) {
      forall i, j | 0 <= i <= j < |s|
        ensures s[i].stringId >= s[j].stringId
      {
        ConsistentDescends(s, i, j);
      }
    }
  }

  lemma {:induction false} ConsistentDescends(s: seq<Coordinate>, i: int, j: int)
    requires Consistent(s) && 0 <= i <= j < |s|
    ensures s[i].stringId >= s[j].stringId
    decreases j - i
  {
    if i < j {
      ConsistentDescends(s, i + 1, j);
    }
  }

  /** Sequences of fewer than two coordinates are always consistent. */
  lemma ShortIsConsistent(s: seq<Coordinate>)
    requires |s| <= 1
    ensures Consistent(s)
  {
  }

  /** Moving down from string 2 to string 1 is consistent; climbing from 1 to 3 is not. */
  lemma ConsistencyExamples()
    ensures Consistent([Coordinate(2, 0), Coordinate(1, 3)])
    ensures !Consistent([Coordinate(1, 0), Coordinate(3, 2)])
  {
    assert [Coordinate(1, 0), Coordinate(3, 2)][0].stringId < [Coordinate(1, 0), Coordinate(3, 2)][1].stringId;
  }

  /** A fingering with its score, as the program pairs them. */
  datatype ScoredSequence = ScoredSequence(sequence: seq<Coordinate>, score: real)

  /**
   * The candidates the program collects before sorting: the consistent
   * fingerings, in input order, each paired with its score.
   */
  function ConsistentScored(seqs: seq<seq<Coordinate>>, score: seq<Coordinate> -> real): seq<ScoredSequence> {
    if seqs == [] then []
    else
      var last := seqs[|seqs| - 1];
      ConsistentScored(seqs[..|seqs| - 1], score) +
        if Consistent(last) then [ScoredSequence(last, score(last))] else []
  }

  /** A scored fingering is a candidate exactly when it is a consistent input with its own score. */
  lemma {:induction false} ConsistentScoredMembers(seqs: seq<seq<Coordinate>>, score: seq<Coordinate> -> real)
    ensures forall x :: x in ConsistentScored(seqs, score) <==>
              x.sequence in seqs && Consistent(x.sequence) && x.score == score(x.sequence)
  {
    if seqs != [] {
      var init := seqs[..|seqs| - 1];
      ConsistentScoredMembers(init, score);
      assert seqs == init + [seqs[|seqs| - 1]];
    }
  }

  /** There are never more candidates than inputs. */
  lemma {:induction false} ConsistentScoredLength(seqs: seq<seq<Coordinate>>, score: seq<Coordinate> -> real)
    ensures |ConsistentScored(seqs, score)| <= |seqs|
  {
    if seqs != [] {
      ConsistentScoredLength(seqs[..|seqs| - 1], score);
    }
  }

  /** Scores never decrease along the sequence. */
  predicate SortedByScore(s: seq<ScoredSequence>) {
    forall i, j :: 0 <= i < j < |s| ==> s[i].score <= s[j].score
  }

  /** Puts `x` into a sorted sequence in front of the first entry that scores at least as much. */
  function Insert(x: ScoredSequence, s: seq<ScoredSequence>): seq<ScoredSequence> {
    if s == [] then [x]
    else if x.score <= s[0].score then [x] + s
    else [s[0]] + Insert(x, s[1..])
  }

  /**
   * A sort by score standing in for the library sort of the program. It keeps
   * ties in input order, which the library sort does not promise; only its
   * contract (sorted, same multiset) is used, through `IsTopSelection`.
   */
  function SortByScore(s: seq<ScoredSequence>): seq<ScoredSequence> {
    if s == [] then [] else Insert(s[0], SortByScore(s[1..]))
  }

  lemma {:induction false} InsertMultiset(x: ScoredSequence, s: seq<ScoredSequence>)
    ensures multiset(Insert(x, s)) == multiset(s) + multiset{x}
  {
    if s != [] && x.score > s[0].score {
      InsertMultiset(x, s[1..]);
      assert s == [s[0]] + s[1..];
    }
  }

  /** Inserting keeps the sequence sorted; the new head is `x` or the old head. */
  lemma {:induction false} InsertSorted(x: ScoredSequence, s: seq<ScoredSequence>)
    requires SortedByScore(s)
    ensures |Insert(x, s)| == |s| + 1
    ensures SortedByScore(Insert(x, s))
    ensures Insert(x, s)[0] == x || (s != [] && Insert(x, s)[0] == s[0])
  {
    if s != [] && x.score > s[0].score {
      var t := Insert(x, s[1..]);
      InsertSorted(x, s[1..]);
      assert s[0].score <= t[0].score by {
        if t[0] != x {
          assert t[0] == s[1];
        }
      }
      forall i, j | 0 <= i < j < |[s[0]] + t|
        ensures ([s[0]] + t)[i].score <= ([s[0]] + t)[j].score
      {
        if i == 0 && j > 1 {
          assert t[0].score <= t[j - 1].score;
        }
      }
      assert Insert(x, s) == [s[0]] + t;
    }
  }

  /** The sort returns its input, as a multiset, with scores non-decreasing. */
  lemma {:induction false} SortByScoreSpec(s: seq<ScoredSequence>)
    ensures SortedByScore(SortByScore(s))
    ensures multiset(SortByScore(s)) == multiset(s)
  {
    if s != [] {
      SortByScoreSpec(s[1..]);
      InsertSorted(s[0], SortByScore(s[1..]));
      InsertMultiset(s[0], SortByScore(s[1..]));
      assert s == [s[0]] + s[1..];
    }
  }

  /** The first `k` entries of a sorted sequence score no more than any entry left out. */
  lemma PrefixIsBest(s: seq<ScoredSequence>, k: int)
    requires SortedByScore(s) && 0 <= k <= |s|
    ensures SortedByScore(s[..k])
    ensures multiset(s[..k]) <= multiset(s)
    ensures forall x, y :: x in multiset(s) - multiset(s[..k]) && y in s[..k] ==> y.score <= x.score
  {
    SplitMultiset(s, k);
    forall x, y | x in multiset(s[k..]) && y in s[..k]
      ensures y.score <= x.score
    {
      PrefixBelowSuffix(s, k, x, y);
    }
  }

  lemma SplitMultiset(s: seq<ScoredSequence>, k: int)
    requires 0 <= k <= |s|
    ensures multiset(s) == multiset(s[..k]) + multiset(s[k..])
    ensures multiset(s) - multiset(s[..k]) == multiset(s[k..])
  {
    assert s == s[..k] + s[k..];
  }

  lemma PrefixBelowSuffix(s: seq<ScoredSequence>, k: int, x: ScoredSequence, y: ScoredSequence)
    requires SortedByScore(s) && 0 <= k <= |s|
    requires x in multiset(s[k..]) && y in s[..k]
    ensures y.score <= x.score
  {
    var i :| 0 <= i < k && s[..k][i] == y;
    var j :| 0 <= j < |s| - k && s[k..][j] == x;
    assert s[i].score <= s[k + j].score;
  }

  function Min(a: int, b: int): int {
    if a <= b then a else b
  }

  /**
   * What any sort by score followed by the cut at `ScaleCutoff` leaves of a
   * pool, whatever order it puts ties in: as many entries as the cut allows,
   * in non-decreasing score, taken from the pool, and none scoring more than
   * an entry left out.
   */
  predicate IsTopSelection(r: seq<ScoredSequence>, pool: seq<ScoredSequence>) {
    && |r| == Min(|pool|, ScaleCutoff)
    && SortedByScore(r)
    && multiset(r) <= multiset(pool)
    && forall x, y :: x in multiset(pool) - multiset(r) && y in r ==> y.score <= x.score
  }

  /** A top selection from a pool of at most ten is the whole pool, as a multiset. */
  lemma TopSelectionOfFewIsAll(r: seq<ScoredSequence>, pool: seq<ScoredSequence>)
    requires IsTopSelection(r, pool) && |pool| <= ScaleCutoff
    ensures multiset(r) == multiset(pool)
  {
    var rest := multiset(pool) - multiset(r);
    assert multiset(pool) == multiset(r) + rest;
    assert |rest| == 0;
  }

  /** The entries of a top selection of the candidates are consistent inputs with their own scores. */
  lemma TopSelectionMembers(r: seq<ScoredSequence>, seqs: seq<seq<Coordinate>>, score: seq<Coordinate> -> real)
    requires IsTopSelection(r, ConsistentScored(seqs, score))
    ensures forall x :: x in r ==> x.sequence in seqs && Consistent(x.sequence) && x.score == score(x.sequence)
  {
    ConsistentScoredMembers(seqs, score);
    forall x | x in r
      ensures x in ConsistentScored(seqs, score)
    {
      assert x in multiset(r);
    }
  }

  /**
   * One selection with that contract: the candidates sorted by the stand-in
   * sort, cut to the first `ScaleCutoff`. It puts ties in input order, which
   * the program's sort need not do, so nothing else is stated in terms of it.
   */
  function SelectBest(seqs: seq<seq<Coordinate>>, score: seq<Coordinate> -> real): seq<ScoredSequence> {
    var sorted := SortByScore(ConsistentScored(seqs, score));
    if |sorted| <= ScaleCutoff then sorted else sorted[..ScaleCutoff]
  }

  /** The stand-in selection is a top selection of the candidates, so one always exists. */
  lemma SelectBestSpec(seqs: seq<seq<Coordinate>>, score: seq<Coordinate> -> real)
    ensures IsTopSelection(SelectBest(seqs, score), ConsistentScored(seqs, score))
  {
    var pool := ConsistentScored(seqs, score);
    var sorted := SortByScore(pool);
    SortByScoreSpec(pool);
    var k := Min(|sorted|, ScaleCutoff);
    assert |sorted| == |pool| by {
      assert |multiset(sorted)| == |multiset(pool)|;
    }
    PrefixIsBest(sorted, k);
    assert sorted[..|sorted|] == sorted;
    assert SelectBest(seqs, score) == sorted[..k];
  }

  /**
   * The program's selection: collects and scores the consistent fingerings,
   * sorts them by score and keeps at most the first ten. The result is a top
   * selection of the candidates; which of several tied entries it keeps is
   * not promised.
   */
  method ScoreAndSortFretboardSequences(seqs: seq<seq<Coordinate>>, score: seq<Coordinate> -> real)
    returns (r: seq<ScoredSequence>)
    ensures IsTopSelection(r, ConsistentScored(seqs, score))
    ensures |r| <= ScaleCutoff
    ensures |ConsistentScored(seqs, score)| <= ScaleCutoff ==> multiset(r) == multiset(ConsistentScored(seqs, score))
    ensures forall x :: x in r ==> x.sequence in seqs && Consistent(x.sequence) && x.score == score(x.sequence)
  {
    var scored: seq<ScoredSequence> := [];
    for i := 0 to |seqs|
      invariant scored == ConsistentScored(seqs[..i], score)
    {
      assert seqs[..i + 1][..i] == seqs[..i];
      var consistent := IsConsistent(seqs[i]);
      if consistent {
        scored := scored + [ScoredSequence(seqs[i], score(seqs[i]))];
      }
    }
    assert seqs[..|seqs|] == seqs;
    var sorted := SortByScore(scored);
    if |sorted| <= ScaleCutoff {
      r := sorted;
    } else {
      r := sorted[..ScaleCutoff];
    }
    assert r == SelectBest(seqs, score);
    SelectBestSpec(seqs, score);
    TopSelectionMembers(r, seqs, score);
    if |scored| <= ScaleCutoff {
      TopSelectionOfFewIsAll(r, scored);
    }
  }

  /** When one input is consistent, every top selection of the candidates is non-empty. */
  lemma TopSelectionNonEmpty(r: seq<ScoredSequence>, seqs: seq<seq<Coordinate>>, score: seq<Coordinate> -> real, p: seq<Coordinate>)
    requires IsTopSelection(r, ConsistentScored(seqs, score))
    requires p in seqs && Consistent(p)
    ensures |r| >= 1
  {
    ConsistentScoredMembers(seqs, score);
    assert ScoredSequence(p, score(p)) in ConsistentScored(seqs, score);
  }
}
