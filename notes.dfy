/**
 * The instrument model of the guitar-scale generator: the fixed tables (open
 * strings, the chromatic alphabet, the scale step patterns), the two value
 * types (a musical note and a fretboard coordinate), Go's truncating integer
 * division, the alphabet lookup, and the wrap-and-carry transposition that
 * both the fretboard and the scale generator use.
 */
module Notes {

  const NumStrings := 6
  const NumFrets := 25
  const NumCanonicalNotes := 12
  const MinOctave := 2
  const MaxOctave := 6
  const ScaleCutoff := 10

  /**
   * A note name. The program spells names as strings; the only strings it ever
   * builds or compares are the twelve of the alphabet below, so each spelling
   * is one constructor here and `Spelling` gives the string back.
   */
  datatype NoteName = C | CSharp | D | DSharp | E | F | FSharp | G | GSharp | A | ASharp | B

  function Spelling(n: NoteName): string {
    match n
    case C => "C"
    case CSharp => "C#"
    case D => "D"
    case DSharp => "D#"
    case E => "E"
    case F => "F"
    case FSharp => "F#"
    case G => "G"
    case GSharp => "G#"
    case A => "A"
    case ASharp => "A#"
    case B => "B"
  }

  /** The alphabet as the program writes it, one string per name. */
  const CanonicalSpellings: seq<string> :=
    ["C", "C#", "D", "D#", "E", "F", "F#", "G", "G#", "A", "A#", "B"]

  /** Open-string names and octaves, string 0 being the high E string. */
  const OpenStringNotes: seq<NoteName> := [E, B, G, D, A, E]
  const OpenStringOctaves: seq<int> := [4, 3, 3, 3, 2, 2]

  /** The chromatic alphabet: sharps only, no enharmonic spellings. */
  const CanonicalNotes: seq<NoteName> :=
    [C, CSharp, D, DSharp, E, F, FSharp, G, GSharp, A, ASharp, B]

  const MinorScaleSteps: seq<int> := [2, 1, 2, 2, 1, 2, 2, 0]
  const MajorScaleSteps: seq<int> := [2, 2, 1, 2, 2, 2, 1, 0]

  /** A pitch: a note name and an octave number (C# and 3 for C#3). */
  datatype MusicalNote = MusicalNote(note: NoteName, octave: int)

  /** A position on the neck: a string index and a fret index (0 = open). */
  datatype Coordinate = Coordinate(stringId: int, fretId: int)

  /** Go's integer quotient, which truncates toward zero. */
  function GoQuo(a: int, b: int): int
    requires b > 0
  {
    if a >= 0 then a / b else -((-a) / b)
  }

  /** Go's remainder, which takes the sign of the dividend. */
  function GoRem(a: int, b: int): int
    requires b > 0
  {
    a - b * GoQuo(a, b)
  }

  /**
   * Go's quotient and remainder recombine to the dividend, the remainder is
   * smaller than the divisor in magnitude and has the dividend's sign, and on a
   * non-negative dividend both agree with Dafny's Euclidean operators.
   */
  lemma GoDivision(a: int, b: int)
    requires b > 0
    ensures b * GoQuo(a, b) + GoRem(a, b) == a
    ensures -b < GoRem(a, b) < b
    ensures a >= 0 ==> 0 <= GoRem(a, b) && GoRem(a, b) == a % b && GoQuo(a, b) == a / b
    ensures a < 0 ==> GoRem(a, b) <= 0
  {
  }

  /**
   * The smallest index holding `element`, or -1 when no entry matches: the
   * reference definition of the linear search `IndexOf`. Its properties are
   * stated by `FirstIndexSpec`.
   */
  function FirstIndex<T(==)>(element: T, data: seq<T>): int {
    if data == [] then -1
    else if data[0] == element then 0
    else
      var k := FirstIndex(element, data[1..]);
      if k == -1 then -1 else k + 1
  }

  /** FirstIndex finds the first match, and answers -1 exactly when there is none. */
  lemma {:induction false} FirstIndexSpec<T>(element: T, data: seq<T>)
    ensures -1 <= FirstIndex(element, data) < |data|
    ensures FirstIndex(element, data) == -1 <==> element !in data
    ensures 0 <= FirstIndex(element, data) ==>
              data[FirstIndex(element, data)] == element &&
              forall j :: 0 <= j < FirstIndex(element, data) ==> data[j] != element
  {
    if data != [] && data[0] != element {
      FirstIndexSpec(element, data[1..]);
      assert data == [data[0]] + data[1..];
    }
  }

  /** The linear search of the program: the first match wins, -1 when absent. */
  method IndexOf<T(==)>(element: T, data: seq<T>) returns (k: int)
    ensures k == FirstIndex(element, data)
    ensures -1 <= k < |data|
    ensures 0 <= k ==> data[k] == element && forall j :: 0 <= j < k ==> data[j] != element
    ensures k == -1 <==> forall j :: 0 <= j < |data| ==> data[j] != element
  {
    FirstIndexSpec(element, data);
    for i := 0 to |data|
      invariant forall j :: 0 <= j < i ==> data[j] != element
    {
      if data[i] == element {
        FirstIndexUnique(element, data, i);
        return i;
      }
    }
    return -1;
  }

  /** Any index that holds the first occurrence is the one FirstIndex finds. */
  lemma FirstIndexUnique<T>(element: T, data: seq<T>, i: int)
    requires 0 <= i < |data| && data[i] == element
    requires forall j :: 0 <= j < i ==> data[j] != element
    ensures FirstIndex(element, data) == i
  {
    FirstIndexSpec(element, data);
    assert data[i] in data;
  }

  /** The position of a name in the alphabet: C is 0, B is 11. */
  function ChromaticIndex(n: NoteName): (r: int)
    ensures 0 <= r < NumCanonicalNotes
  {
    match n
    case C => 0
    case CSharp => 1
    case D => 2
    case DSharp => 3
    case E => 4
    case F => 5
    case FSharp => 6
    case G => 7
    case GSharp => 8
    case A => 9
    case ASharp => 10
    case B => 11
  }

  /** The alphabet lists every name exactly at its chromatic index. */
  lemma AlphabetAt(n: NoteName)
    ensures CanonicalNotes[ChromaticIndex(n)] == n
  {
  }

  /** Reading the alphabet at `j` and taking the chromatic index gives `j` back. */
  lemma IndexOfAlphabet(j: int)
    requires 0 <= j < NumCanonicalNotes
    ensures ChromaticIndex(CanonicalNotes[j]) == j
  {
    assert CanonicalNotes[j] in CanonicalNotes;
  }

  /**
   * The program finds a name's chromatic index by searching the alphabet; the
   * search finds every name, at its chromatic index.
   */
  lemma SearchFindsChromaticIndex(n: NoteName)
    ensures FirstIndex(n, CanonicalNotes) == ChromaticIndex(n)
  {
    var j := ChromaticIndex(n);
    AlphabetAt(n);
    forall i | 0 <= i < j
      ensures CanonicalNotes[i] != n
    {
      IndexOfAlphabet(i);
    }
    FirstIndexUnique(n, CanonicalNotes, j);
  }

  /**
   * Searching the program's string alphabet for a name's spelling finds its
   * chromatic index, so looking names up by string and by constructor agree.
   */
  lemma SearchFindsSpelling(n: NoteName)
    ensures FirstIndex(Spelling(n), CanonicalSpellings) == ChromaticIndex(n)
  {
    var j := ChromaticIndex(n);
    assert CanonicalSpellings[j] == Spelling(n);
    forall i | 0 <= i < j
      ensures CanonicalSpellings[i] != Spelling(n)
    {
    }
    FirstIndexUnique(Spelling(n), CanonicalSpellings, j);
  }

  /** Two names with the same spelling are the same name. */
  lemma SpellingInjective(a: NoteName, b: NoteName)
    requires Spelling(a) == Spelling(b)
    ensures a == b
  {
    SearchFindsSpelling(a);
    SearchFindsSpelling(b);
    AlphabetAt(a);
    AlphabetAt(b);
  }

  /** The absolute pitch of a note, counted in semitones from C of octave 0. */
  function Semitone(n: MusicalNote): int {
    12 * n.octave + ChromaticIndex(n.note)
  }

  /** Two notes with the same absolute pitch are the same note. */
  lemma SemitoneInjective(a: MusicalNote, b: MusicalNote)
    requires Semitone(a) == Semitone(b)
    ensures a == b
  {
    assert a.octave == b.octave;
    AlphabetAt(a.note);
    AlphabetAt(b.note);
  }

  /**
   * Whether transposing up by `k` semitones stays within what the program can
   * index: Go's remainder of a negative index is negative and would panic.
   */
  predicate CanTranspose(n: MusicalNote, k: int) {
    GoRem(ChromaticIndex(n.note) + k, NumCanonicalNotes) >= 0
  }

  /**
   * The wrap-and-carry rule of the program: the note `d` chromatic steps above
   * C of `octave` has name `alphabet[d % 12]` and octave `octave + d / 12`,
   * with Go's truncating operators.
   */
  function Carry(octave: int, d: int): MusicalNote
    requires GoRem(d, NumCanonicalNotes) >= 0
  {
    GoDivision(d, NumCanonicalNotes);
    MusicalNote(CanonicalNotes[GoRem(d, NumCanonicalNotes)], octave + GoQuo(d, NumCanonicalNotes))
  }

  /** The carried note lies exactly `d` semitones above C of `octave`. */
  lemma CarrySemitone(octave: int, d: int)
    requires GoRem(d, NumCanonicalNotes) >= 0
    ensures Semitone(Carry(octave, d)) == 12 * octave + d
  {
    GoDivision(d, NumCanonicalNotes);
    IndexOfAlphabet(GoRem(d, NumCanonicalNotes));
  }

  /** The note `k` semitones above `n`, computed by the wrap-and-carry rule. */
  function Transpose(n: MusicalNote, k: int): MusicalNote
    requires CanTranspose(n, k)
  {
    Carry(n.octave, ChromaticIndex(n.note) + k)
  }

  /** Transposing by `k` raises the absolute pitch by exactly `k` semitones. */
  lemma TransposeSemitone(n: MusicalNote, k: int)
    requires CanTranspose(n, k)
    ensures Semitone(Transpose(n, k)) == Semitone(n) + k
  {
    CarrySemitone(n.octave, ChromaticIndex(n.note) + k);
  }

  /** Transposing by zero semitones gives the note back. */
  lemma TransposeZero(n: MusicalNote)
    ensures CanTranspose(n, 0) && Transpose(n, 0) == n
  {
    TransposeSemitone(n, 0);
    SemitoneInjective(Transpose(n, 0), n);
  }
}
