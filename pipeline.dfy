/**
 * The per-root driver: for every name of the alphabet, build the scale from
 * that root, enumerate its fingerings and, when there are any, select the
 * best ones for rendering.
 */
module Pipeline {
  import opened Notes
  import opened Board
  import opened Scales
  import opened Enumeration
  import opened Selection

  /** The step pattern for a scale type; an unknown type leaves Go's zero-valued array. */
  function StepsFor(scaleType: string): (r: seq<int>)
    ensures |r| == 8 && forall i :: 0 <= i < |r| ==> r[i] >= 0
  {
    if scaleType == "min" then MinorScaleSteps
    else if scaleType == "maj" then MajorScaleSteps
    else [0, 0, 0, 0, 0, 0, 0, 0]
  }

  /** What the driver computes for one root before selecting: the scale and all its fingerings. */
  datatype RootPlan = RootPlan(root: NoteName, scale: seq<MusicalNote>, fingerings: seq<seq<Coordinate>>)

  /** What the driver hands to the renderer for one root: the scale and its selected fingerings. */
  datatype RootResult = RootResult(root: NoteName, scale: seq<MusicalNote>, best: seq<ScoredSequence>)

  /** The scale of the given type from a root in the given octave. */
  function RootScale(root: NoteName, scaleType: string, octave: int): seq<MusicalNote> {
    NonNegativeStepsAreValid(MusicalNote(root, octave), StepsFor(scaleType));
    ScaleOf(MusicalNote(root, octave), StepsFor(scaleType))
  }

  /** The plan for one root, or nothing when the scale has no fingering at all. */
  function PlanFor(root: NoteName, scaleType: string, octave: int): seq<RootPlan> {
    var scale := RootScale(root, scaleType, octave);
    var seqs := AllFretboardSequences(scale);
    if seqs == [] then [] else [RootPlan(root, scale, seqs)]
  }

  /** The plans for the first `n` names of the alphabet, in alphabet order. */
  function PlansUpTo(scaleType: string, octave: int, n: int): seq<RootPlan>
    requires 0 <= n <= NumCanonicalNotes
  {
    if n == 0 then []
    else PlansUpTo(scaleType, octave, n - 1) + PlanFor(CanonicalNotes[n - 1], scaleType, octave)
  }

  /**
   * The reference driver: one plan per root of the alphabet whose scale has a
   * fingering, in alphabet order.
   */
  function AllPlans(scaleType: string, octave: int): seq<RootPlan> {
    PlansUpTo(scaleType, octave, NumCanonicalNotes)
  }

  /** A plan is correct for its root when it carries that root's scale and all of its fingerings. */
  predicate IsPlanFor(p: RootPlan, scaleType: string, octave: int) {
    && p.scale == RootScale(p.root, scaleType, octave)
    && p.fingerings == AllFretboardSequences(p.scale)
    && p.fingerings != []
  }

  /** A result carries a plan when it has the plan's root and scale and a top selection of its candidates. */
  predicate Carries(r: RootResult, p: RootPlan, score: seq<Coordinate> -> real) {
    && r.root == p.root
    && r.scale == p.scale
    && IsTopSelection(r.best, ConsistentScored(p.fingerings, score))
  }

  /** The driver's results follow the plans one for one. */
  predicate FollowsPlans(results: seq<RootResult>, plans: seq<RootPlan>, score: seq<Coordinate> -> real) {
    |results| == |plans| && forall i :: 0 <= i < |results| ==> Carries(results[i], plans[i], score)
  }

  lemma {:induction false} PlansUpToMembers(scaleType: string, octave: int, n: int)
    requires 0 <= n <= NumCanonicalNotes
    ensures forall p :: p in PlansUpTo(scaleType, octave, n) <==>
              ChromaticIndex(p.root) < n && IsPlanFor(p, scaleType, octave)
  {
    if n > 0 {
      PlansUpToMembers(scaleType, octave, n - 1);
      IndexOfAlphabet(n - 1);
      forall p
        ensures p in PlanFor(CanonicalNotes[n - 1], scaleType, octave) <==>
                ChromaticIndex(p.root) == n - 1 && IsPlanFor(p, scaleType, octave)
      {
        if ChromaticIndex(p.root) == n - 1 {
          AlphabetAt(p.root);
        }
      }
    }
  }

  /**
   * The driver plans exactly the roots whose scale has at least one
   * fingering, each plan carrying that root's scale and all its fingerings.
   */
  lemma AllPlansMembers(scaleType: string, octave: int)
    ensures forall p :: p in AllPlans(scaleType, octave) <==> IsPlanFor(p, scaleType, octave)
  {
    PlansUpToMembers(scaleType, octave, NumCanonicalNotes);
  }

  lemma {:induction false} PlansUpToBounded(scaleType: string, octave: int, n: int)
    requires 0 <= n <= NumCanonicalNotes
    ensures |PlansUpTo(scaleType, octave, n)| <= n
    ensures forall i :: 0 <= i < |PlansUpTo(scaleType, octave, n)| ==>
              ChromaticIndex(PlansUpTo(scaleType, octave, n)[i].root) < n
  {
    if n > 0 {
      PlansUpToBounded(scaleType, octave, n - 1);
      IndexOfAlphabet(n - 1);
    }
  }

  lemma {:induction false} PlansUpToOrdered(scaleType: string, octave: int, n: int)
    requires 0 <= n <= NumCanonicalNotes
    ensures forall i, j :: 0 <= i < j < |PlansUpTo(scaleType, octave, n)| ==>
              ChromaticIndex(PlansUpTo(scaleType, octave, n)[i].root) <
              ChromaticIndex(PlansUpTo(scaleType, octave, n)[j].root)
  {
    if n > 0 {
      PlansUpToOrdered(scaleType, octave, n - 1);
      PlansUpToBounded(scaleType, octave, n - 1);
      IndexOfAlphabet(n - 1);
    }
  }

  /** The plans come in alphabet order, at most one per root. */
  lemma AllPlansOrdered(scaleType: string, octave: int)
    ensures |AllPlans(scaleType, octave)| <= NumCanonicalNotes
    ensures forall i, j :: 0 <= i < j < |AllPlans(scaleType, octave)| ==>
              ChromaticIndex(AllPlans(scaleType, octave)[i].root) <
              ChromaticIndex(AllPlans(scaleType, octave)[j].root)
  {
    PlansUpToBounded(scaleType, octave, NumCanonicalNotes);
    PlansUpToOrdered(scaleType, octave, NumCanonicalNotes);
  }

  /**
   * Results that follow the plans report exactly the roots whose scale has a
   * fingering, each at most once and in alphabet order, each with that root's
   * scale.
   */
  lemma ResultRoots(results: seq<RootResult>, scaleType: string, octave: int, score: seq<Coordinate> -> real)
    requires FollowsPlans(results, AllPlans(scaleType, octave), score)
    ensures forall root: NoteName ::
              (exists i :: 0 <= i < |results| && results[i].root == root) <==>
              AllFretboardSequences(RootScale(root, scaleType, octave)) != []
    ensures forall i, j :: 0 <= i < j < |results| ==> ChromaticIndex(results[i].root) < ChromaticIndex(results[j].root)
    ensures forall i :: 0 <= i < |results| ==> results[i].scale == RootScale(results[i].root, scaleType, octave)
  {
    var plans := AllPlans(scaleType, octave);
    AllPlansMembers(scaleType, octave);
    AllPlansOrdered(scaleType, octave);
    forall root: NoteName
      ensures (exists i :: 0 <= i < |results| && results[i].root == root) <==>
              AllFretboardSequences(RootScale(root, scaleType, octave)) != []
    {
      var scale := RootScale(root, scaleType, octave);
      if AllFretboardSequences(scale) != [] {
        var p := RootPlan(root, scale, AllFretboardSequences(scale));
        assert IsPlanFor(p, scaleType, octave);
        var i :| 0 <= i < |plans| && plans[i] == p;
        assert results[i].root == root;
      }
      if exists i :: 0 <= i < |results| && results[i].root == root {
        var i :| 0 <= i < |results| && results[i].root == root;
        assert plans[i] in plans;
      }
    }
    forall i | 0 <= i < |results|
      ensures results[i].scale == RootScale(results[i].root, scaleType, octave)
    {
      assert plans[i] in plans;
    }
  }

  /**
   * Every fingering handed to the renderer plays its root's scale note by
   * note, never climbs to a higher string, and at most ten come per root.
   */
  lemma ResultFingerings(results: seq<RootResult>, scaleType: string, octave: int, score: seq<Coordinate> -> real)
    requires FollowsPlans(results, AllPlans(scaleType, octave), score)
    ensures forall r :: r in results ==>
              |r.best| <= ScaleCutoff &&
              forall x :: x in r.best ==> Realizes(x.sequence, r.scale) && Consistent(x.sequence)
  {
    var plans := AllPlans(scaleType, octave);
    AllPlansMembers(scaleType, octave);
    forall r | r in results
      ensures |r.best| <= ScaleCutoff
      ensures forall x :: x in r.best ==> Realizes(x.sequence, r.scale) && Consistent(x.sequence)
    {
      var i :| 0 <= i < |results| && results[i] == r;
      var p := plans[i];
      assert p in plans;
      TopSelectionMembers(r.best, p.fingerings, score);
      EnumerationMembers(p.scale);
    }
  }

  /** The scale the driver builds for the `j`-th root is that root's scale. */
  lemma DriverScale(scaleType: string, octave: int, j: int, steps: seq<int>)
    requires 0 <= j < NumCanonicalNotes && steps == StepsFor(scaleType)
    ensures ValidScaleRequest(MusicalNote(CanonicalNotes[j], octave), steps)
    ensures ScaleOf(MusicalNote(CanonicalNotes[j], octave), steps) == RootScale(CanonicalNotes[j], scaleType, octave)
  {
    NonNegativeStepsAreValid(MusicalNote(CanonicalNotes[j], octave), steps);
  }

  /** A root whose scale has no fingering adds no plan. */
  lemma DriverSkips(results: seq<RootResult>, scaleType: string, octave: int, j: int, score: seq<Coordinate> -> real)
    requires 0 <= j < NumCanonicalNotes
    requires FollowsPlans(results, PlansUpTo(scaleType, octave, j), score)
    requires AllFretboardSequences(RootScale(CanonicalNotes[j], scaleType, octave)) == []
    ensures FollowsPlans(results, PlansUpTo(scaleType, octave, j + 1), score)
  {
    assert PlansUpTo(scaleType, octave, j + 1) == PlansUpTo(scaleType, octave, j);
  }

  /** A top selection for the next root's fingerings extends results that follow the plans so far. */
  lemma DriverAdds(results: seq<RootResult>, scaleType: string, octave: int, j: int, score: seq<Coordinate> -> real,
                   scale: seq<MusicalNote>, best: seq<ScoredSequence>)
    requires 0 <= j < NumCanonicalNotes
    requires FollowsPlans(results, PlansUpTo(scaleType, octave, j), score)
    requires scale == RootScale(CanonicalNotes[j], scaleType, octave) && AllFretboardSequences(scale) != []
    requires IsTopSelection(best, ConsistentScored(AllFretboardSequences(scale), score))
    ensures FollowsPlans(results + [RootResult(CanonicalNotes[j], scale, best)], PlansUpTo(scaleType, octave, j + 1), score)
  {
    var p := RootPlan(CanonicalNotes[j], scale, AllFretboardSequences(scale));
    assert PlansUpTo(scaleType, octave, j + 1) == PlansUpTo(scaleType, octave, j) + [p];
    assert Carries(RootResult(CanonicalNotes[j], scale, best), p, score);
  }

  /**
   * The program's driver, without the rendering of each selected fingering:
   * one result per planned root, in order, each with a top selection of
   * that root's consistent fingerings.
   */
  method GenerateAllSequences(scaleType: string, scaleOctave: int, score: seq<Coordinate> -> real)
    returns (results: seq<RootResult>)
    ensures FollowsPlans(results, AllPlans(scaleType, scaleOctave), score)
  {
    var steps := StepsFor(scaleType);
    results := [];
    for j := 0 to NumCanonicalNotes
      invariant FollowsPlans(results, PlansUpTo(scaleType, scaleOctave, j), score)
    {
      DriverScale(scaleType, scaleOctave, j, steps);
      var rootNote := CanonicalNotes[j];
      var musicalRootNote := MusicalNote(rootNote, scaleOctave);
      var scale := GetScale(musicalRootNote, steps);
      var scaleFretboardSequences := AllFretboardSequences(scale);
      if |scaleFretboardSequences| > 0 {
        var best := ScoreAndSortFretboardSequences(scaleFretboardSequences, score);
        DriverAdds(results, scaleType, scaleOctave, j, score, scale, best);
        results := results + [RootResult(rootNote, scale, best)];
      } else {
        DriverSkips(results, scaleType, scaleOctave, j, score);
      }
    }
  }

  /** The fingering of a major scale up the A string from fret `base`. */
  function AStringMajorRun(base: int): seq<Coordinate> {
    [Coordinate(4, base), Coordinate(4, base + 2), Coordinate(4, base + 4), Coordinate(4, base + 5),
     Coordinate(4, base + 7), Coordinate(4, base + 9), Coordinate(4, base + 11), Coordinate(4, base + 12)]
  }

  /** A major from octave 2 or 3 can be played up the A string, starting at fret 12 * (octave - 2). */
  lemma AMajorOnAString(octave: int)
    requires octave == 2 || octave == 3
    ensures ValidScaleRequest(MusicalNote(A, octave), MajorScaleSteps)
    ensures Realizes(AStringMajorRun(12 * (octave - 2)), ScaleOf(MusicalNote(A, octave), MajorScaleSteps))
  {
    var root, steps := MusicalNote(A, octave), MajorScaleSteps;
    var base := 12 * (octave - 2);
    var p := AStringMajorRun(base);
    NonNegativeStepsAreValid(root, steps);
    forall k | 0 <= k < |p|
      ensures OnBoard(p[k]) && NoteAt(p[k]) == ScaleOf(root, steps)[k]
    {
      assert p[k] == Coordinate(4, base + PrefixSum(steps, k));
      NoteAtSemitone(p[k]);
      ScaleNoteByPitch(root, steps, k, NoteAt(p[k]));
    }
  }

  /** The A-string run never moves to another string. */
  lemma AStringRunIsConsistent(base: int)
    ensures Consistent(AStringMajorRun(base))
  {
  }

  /**
   * Every root whose scale has a consistent fingering gets a result with at
   * least one selected fingering, whatever the score and whichever way the
   * sort breaks ties.
   */
  lemma PlayableRootIsRendered(results: seq<RootResult>, scaleType: string, octave: int, score: seq<Coordinate> -> real,
                               root: NoteName, run: seq<Coordinate>)
    requires FollowsPlans(results, AllPlans(scaleType, octave), score)
    requires run in AllFretboardSequences(RootScale(root, scaleType, octave)) && Consistent(run)
    ensures exists r :: r in results && r.root == root && |r.best| >= 1
  {
    var plans := AllPlans(scaleType, octave);
    var scale := RootScale(root, scaleType, octave);
    var p := RootPlan(root, scale, AllFretboardSequences(scale));
    AllPlansMembers(scaleType, octave);
    assert IsPlanFor(p, scaleType, octave);
    var i :| 0 <= i < |plans| && plans[i] == p;
    assert Carries(results[i], p, score);
    TopSelectionNonEmpty(results[i].best, p.fingerings, score, run);
    assert results[i] in results;
  }

  /** A major from octave 2 or 3 has the A-string run among its consistent fingerings. */
  lemma AMajorIsPlayable(octave: int)
    requires octave == 2 || octave == 3
    ensures AStringMajorRun(12 * (octave - 2)) in AllFretboardSequences(RootScale(A, "maj", octave))
    ensures Consistent(AStringMajorRun(12 * (octave - 2)))
  {
    AMajorOnAString(octave);
    assert StepsFor("maj") == MajorScaleSteps;
    EnumerationMembers(RootScale(A, "maj", octave));
    AStringRunIsConsistent(12 * (octave - 2));
  }

  /** End to end: a major-scale run from octave 2 or 3 reports A with at least one selected fingering. */
  lemma AMajorIsRendered(results: seq<RootResult>, scaleType: string, octave: int, score: seq<Coordinate> -> real)
    requires scaleType == "maj" && (octave == 2 || octave == 3)
    requires FollowsPlans(results, AllPlans(scaleType, octave), score)
    ensures exists r :: r in results && r.root == A && |r.best| >= 1
  {
    AMajorIsPlayable(octave);
    PlayableRootIsRendered(results, scaleType, octave, score, A, AStringMajorRun(12 * (octave - 2)));
  }

  /** The program's run for major scales from octave 3 renders A major. */
  lemma AMajorFromOctaveThreeIsRendered(results: seq<RootResult>, score: seq<Coordinate> -> real)
    requires FollowsPlans(results, AllPlans("maj", 3), score)
    ensures exists r :: r in results && r.root == A && |r.best| >= 1
  {
    AMajorIsRendered(results, "maj", 3, score);
  }
}
