/**
 * Scale generation: walking a step pattern up from a root note with the same
 * wrap-and-carry rule as the fretboard.
 */
module Scales {
  import opened Notes

  /** The number of semitones covered by the first `i` steps of the pattern. */
  function PrefixSum(steps: seq<int>, i: int): int
    requires 0 <= i <= |steps|
  {
    if i == 0 then 0 else PrefixSum(steps, i - 1) + steps[i - 1]
  }

  /**
   * Whether every note the generator computes can be looked up: with Go's
   * truncating remainder, an index below C of the root's octave that is not
   * a multiple of 12 leaves a negative remainder, on which the program panics.
   */
  predicate ValidScaleRequest(root: MusicalNote, steps: seq<int>) {
    forall i {:trigger CanTranspose(root, PrefixSum(steps, i))} ::
      0 <= i < |steps| ==> CanTranspose(root, PrefixSum(steps, i))
  }

  /** The first `n` notes of the scale, in the order the generator appends them. */
  function ScaleUpTo(root: MusicalNote, steps: seq<int>, n: int): (r: seq<MusicalNote>)
    requires ValidScaleRequest(root, steps) && 0 <= n <= |steps|
    ensures |r| == n
  {
    if n == 0 then []
    else
      assert CanTranspose(root, PrefixSum(steps, n - 1));
      ScaleUpTo(root, steps, n - 1) + [Transpose(root, PrefixSum(steps, n - 1))]
  }

  /**
   * The reference scale: one note per step, note `i` being the root transposed
   * up by the sum of the steps before it (see `ScaleAt`). The last step of a
   * pattern is therefore never used.
   */
  function ScaleOf(root: MusicalNote, steps: seq<int>): (r: seq<MusicalNote>)
    requires ValidScaleRequest(root, steps)
    ensures |r| == |steps|
  {
    ScaleUpTo(root, steps, |steps|)
  }

  lemma {:induction false} ScaleUpToAt(root: MusicalNote, steps: seq<int>, n: int, i: int)
    requires ValidScaleRequest(root, steps) && 0 <= i < n <= |steps|
    ensures CanTranspose(root, PrefixSum(steps, i))
    ensures ScaleUpTo(root, steps, n)[i] == Transpose(root, PrefixSum(steps, i))
  {
    assert CanTranspose(root, PrefixSum(steps, i));
    if i < n - 1 {
      ScaleUpToAt(root, steps, n - 1, i);
    } else if n > 1 {
      ScaleUpToAt(root, steps, n - 1, 0);
    }
  }

  /** The scale has one note per step, note `i` being the root raised by the first `i` steps. */
  lemma ScaleAt(root: MusicalNote, steps: seq<int>, i: int)
    requires ValidScaleRequest(root, steps) && 0 <= i < |steps|
    ensures CanTranspose(root, PrefixSum(steps, i))
    ensures ScaleOf(root, steps)[i] == Transpose(root, PrefixSum(steps, i))
  {
    ScaleUpToAt(root, steps, |steps|, i);
  }

  /** Steps that never go down can always be looked up. */
  lemma {:induction false} NonNegativeStepsAreValid(root: MusicalNote, steps: seq<int>)
    requires forall i :: 0 <= i < |steps| ==> steps[i] >= 0
    ensures ValidScaleRequest(root, steps)
  {
    forall i | 0 <= i < |steps|
      ensures CanTranspose(root, PrefixSum(steps, i))
    {
      PrefixSumNonNegative(steps, i);
      GoDivision(ChromaticIndex(root.note) + PrefixSum(steps, i), NumCanonicalNotes);
    }
  }

  lemma {:induction false} PrefixSumNonNegative(steps: seq<int>, i: int)
    requires 0 <= i <= |steps|
    requires forall j :: 0 <= j < |steps| ==> steps[j] >= 0
    ensures PrefixSum(steps, i) >= 0
  {
    if i > 0 {
      PrefixSumNonNegative(steps, i - 1);
    }
  }

  /** Extending the prefix by one note appends the next transposition. */
  lemma ScaleUpToNext(root: MusicalNote, steps: seq<int>, i: int)
    requires ValidScaleRequest(root, steps) && 0 <= i < |steps|
    ensures CanTranspose(root, PrefixSum(steps, i))
    ensures ScaleUpTo(root, steps, i + 1) == ScaleUpTo(root, steps, i) + [Transpose(root, PrefixSum(steps, i))]
  {
  }

  /** The generator's inline wrap-and-carry on the looked-up index is the transposition. */
  lemma InlineCarry(root: MusicalNote, id: int, offset: int)
    requires id == ChromaticIndex(root.note) && CanTranspose(root, offset)
    ensures 0 <= GoRem(id + offset, NumCanonicalNotes) < NumCanonicalNotes
    ensures MusicalNote(CanonicalNotes[GoRem(id + offset, NumCanonicalNotes)], root.octave + GoQuo(id + offset, NumCanonicalNotes))
            == Transpose(root, offset)
  {
    GoDivision(id + offset, NumCanonicalNotes);
  }

  /**
   * The program's generator: looks the root's name up in the alphabet, then
   * emits one note per step, carrying the running offset into the octave.
   */
  method GetScale(root: MusicalNote, steps: seq<int>) returns (result: seq<MusicalNote>)
    requires ValidScaleRequest(root, steps)
    ensures result == ScaleOf(root, steps)
  {
    var rootNoteCanonicalId := IndexOf(root.note, CanonicalNotes[..]);
    SearchFindsChromaticIndex(root.note);
    var rootNoteOctave := root.octave;
    result := [];
    var offset := 0;
    for i := 0 to |steps|
      invariant offset == PrefixSum(steps, i)
      invariant result == ScaleUpTo(root, steps, i)
    {
      ScaleUpToNext(root, steps, i);
      InlineCarry(root, rootNoteCanonicalId, offset);
      var octave := rootNoteOctave + GoQuo(rootNoteCanonicalId + offset, NumCanonicalNotes);
      var musicalNote := MusicalNote(CanonicalNotes[GoRem(rootNoteCanonicalId + offset, NumCanonicalNotes)], octave);
      result := result + [musicalNote];
      offset := offset + steps[i];
    }
  }

  /** A scale from a non-empty pattern starts at its root. */
  lemma ScaleStartsAtRoot(root: MusicalNote, steps: seq<int>)
    requires ValidScaleRequest(root, steps) && |steps| > 0
    ensures ScaleOf(root, steps)[0] == root
  {
    ScaleAt(root, steps, 0);
    TransposeZero(root);
  }

  /** Note `i` of the scale lies exactly `steps[0] + ... + steps[i-1]` semitones above the root. */
  lemma ScaleSemitones(root: MusicalNote, steps: seq<int>, i: int)
    requires ValidScaleRequest(root, steps) && 0 <= i < |steps|
    ensures Semitone(ScaleOf(root, steps)[i]) == Semitone(root) + PrefixSum(steps, i)
  {
    ScaleAt(root, steps, i);
    TransposeSemitone(root, PrefixSum(steps, i));
  }

  /** Consecutive notes of the scale lie exactly one step of the pattern apart. */
  lemma ScaleIntervals(root: MusicalNote, steps: seq<int>, i: int)
    requires ValidScaleRequest(root, steps) && 0 <= i && i + 1 < |steps|
    ensures Semitone(ScaleOf(root, steps)[i + 1]) - Semitone(ScaleOf(root, steps)[i]) == steps[i]
  {
    ScaleSemitones(root, steps, i);
    ScaleSemitones(root, steps, i + 1);
  }

  /** The two built-in patterns climb exactly one octave over their eight notes. */
  lemma BuiltInPatternsSpanAnOctave(root: MusicalNote, steps: seq<int>)
    requires steps == MinorScaleSteps || steps == MajorScaleSteps
    ensures ValidScaleRequest(root, steps)
    ensures |ScaleOf(root, steps)| == 8
    ensures ScaleOf(root, steps)[7] == MusicalNote(root.note, root.octave + 1)
  {
    NonNegativeStepsAreValid(root, steps);
    assert PrefixSum(steps, 7) == 12;
    ScaleAt(root, steps, 7);
    ScaleSemitones(root, steps, 7);
    SemitoneInjective(ScaleOf(root, steps)[7], MusicalNote(root.note, root.octave + 1));
  }

  /** A note with the right absolute pitch is the scale's note at that index. */
  lemma ScaleNoteByPitch(root: MusicalNote, steps: seq<int>, i: int, expected: MusicalNote)
    requires ValidScaleRequest(root, steps) && 0 <= i < |steps|
    requires Semitone(expected) == Semitone(root) + PrefixSum(steps, i)
    ensures ScaleOf(root, steps)[i] == expected
  {
    ScaleSemitones(root, steps, i);
    SemitoneInjective(ScaleOf(root, steps)[i], expected);
  }

  /** C minor from any octave o: C D D# F G G# A# in octave o, then C of octave o + 1. */
  lemma CMinorScale(octave: int)
    ensures ValidScaleRequest(MusicalNote(C, octave), MinorScaleSteps)
    ensures ScaleOf(MusicalNote(C, octave), MinorScaleSteps) ==
              [MusicalNote(C, octave), MusicalNote(D, octave), MusicalNote(DSharp, octave),
               MusicalNote(F, octave), MusicalNote(G, octave), MusicalNote(GSharp, octave),
               MusicalNote(ASharp, octave), MusicalNote(C, octave + 1)]
  {
    var root, steps := MusicalNote(C, octave), MinorScaleSteps;
    NonNegativeStepsAreValid(root, steps);
    assert PrefixSum(steps, 1) == 2;
    assert PrefixSum(steps, 2) == 3;
    assert PrefixSum(steps, 3) == 5;
    assert PrefixSum(steps, 4) == 7;
    assert PrefixSum(steps, 5) == 8;
    assert PrefixSum(steps, 6) == 10;
    assert PrefixSum(steps, 7) == 12;
    ScaleNoteByPitch(root, steps, 0, MusicalNote(C, octave));
    ScaleNoteByPitch(root, steps, 1, MusicalNote(D, octave));
    ScaleNoteByPitch(root, steps, 2, MusicalNote(DSharp, octave));
    ScaleNoteByPitch(root, steps, 3, MusicalNote(F, octave));
    ScaleNoteByPitch(root, steps, 4, MusicalNote(G, octave));
    ScaleNoteByPitch(root, steps, 5, MusicalNote(GSharp, octave));
    ScaleNoteByPitch(root, steps, 6, MusicalNote(ASharp, octave));
    ScaleNoteByPitch(root, steps, 7, MusicalNote(C, octave + 1));
  }

  /** C minor from C3 is C3 D3 D#3 F3 G3 G#3 A#3 C4. */
  lemma CMinorFromOctaveThree()
    ensures ValidScaleRequest(MusicalNote(C, 3), MinorScaleSteps)
    ensures ScaleOf(MusicalNote(C, 3), MinorScaleSteps) ==
              [MusicalNote(C, 3), MusicalNote(D, 3), MusicalNote(DSharp, 3), MusicalNote(F, 3),
               MusicalNote(G, 3), MusicalNote(GSharp, 3), MusicalNote(ASharp, 3), MusicalNote(C, 4)]
  {
    CMinorScale(3);
  }
}
