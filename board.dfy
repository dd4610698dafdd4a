/**
 * The position table: the note produced at every (string, fret) of the
 * 6-string, 25-fret neck, the fretboard object the program fills in place,
 * and the inverse lookup from a note to the coordinates that produce it.
 */
module Board {
  import opened Notes

  predicate OnBoard(c: Coordinate) {
    0 <= c.stringId < NumStrings && 0 <= c.fretId < NumFrets
  }

  /** Coordinate order of the inverse lookup: by string, then by fret. */
  predicate Before(a: Coordinate, b: Coordinate) {
    a.stringId < b.stringId || (a.stringId == b.stringId && a.fretId < b.fretId)
  }

  /** Strictly increasing in coordinate order, hence free of repetitions. */
  predicate Ordered(cs: seq<Coordinate>) {
    forall i, j :: 0 <= i < j < |cs| ==> Before(cs[i], cs[j])
  }

  function OpenNote(s: int): MusicalNote
    requires 0 <= s < NumStrings
  {
    MusicalNote(OpenStringNotes[s], OpenStringOctaves[s])
  }

  /**
   * The note at a coordinate: name `alphabet[(open + fret) % 12]` and octave
   * `openOctave + (open + fret) / 12`, `open` being the open string's
   * chromatic index.
   */
  function NoteAt(c: Coordinate): MusicalNote
    requires OnBoard(c)
  {
    var d := ChromaticIndex(OpenStringNotes[c.stringId]) + c.fretId;
    MusicalNote(CanonicalNotes[d % NumCanonicalNotes], OpenStringOctaves[c.stringId] + d / NumCanonicalNotes)
  }

  /** The layout is the open note transposed up by the fret number. */
  lemma NoteAtIsTransposition(c: Coordinate)
    requires OnBoard(c)
    ensures CanTranspose(OpenNote(c.stringId), c.fretId)
    ensures NoteAt(c) == Transpose(OpenNote(c.stringId), c.fretId)
  {
  }

  /** The absolute pitch at a coordinate is the open string's plus the fret. */
  lemma NoteAtSemitone(c: Coordinate)
    requires OnBoard(c)
    ensures Semitone(NoteAt(c)) == Semitone(OpenNote(c.stringId)) + c.fretId
  {
    CarrySemitone(OpenStringOctaves[c.stringId], ChromaticIndex(OpenStringNotes[c.stringId]) + c.fretId);
  }

  /** One fret up on a string is exactly one semitone up. */
  lemma NextFretIsNextSemitone(s: int, f: int)
    requires 0 <= s < NumStrings && 0 <= f && f + 1 < NumFrets
    ensures Semitone(NoteAt(Coordinate(s, f + 1))) == Semitone(NoteAt(Coordinate(s, f))) + 1
  {
    NoteAtSemitone(Coordinate(s, f));
    NoteAtSemitone(Coordinate(s, f + 1));
  }

  /** Every note on the board lies in the octaves 2..6 that the inverse map covers. */
  lemma NoteAtOctaveRange(c: Coordinate)
    requires OnBoard(c)
    ensures MinOctave <= NoteAt(c).octave <= MaxOctave
  {
  }

  /** The fretboard of the program: a 6 x 25 table of notes filled once. */
  class Fretboard {
    const musicalNotes: array2<MusicalNote>

    ghost predicate Valid()
      reads musicalNotes
    {
      && musicalNotes.Length0 == NumStrings
      && musicalNotes.Length1 == NumFrets
      && forall s, f :: 0 <= s < NumStrings && 0 <= f < NumFrets ==>
           musicalNotes[s, f] == NoteAt(Coordinate(s, f))
    }

    /**
     * Fills the table string by string: looks the open string's name up in the
     * alphabet, then carries it up fret by fret.
     */
    constructor ()
      ensures Valid() && fresh(musicalNotes)
    {
      var cells := new MusicalNote[NumStrings, NumFrets];
      for stringId := 0 to NumStrings
        invariant forall s, f :: 0 <= s < stringId && 0 <= f < NumFrets ==>
                    cells[s, f] == NoteAt(Coordinate(s, f))
      {
        var openStringNote := OpenStringNotes[stringId];
        var openStringOctave := OpenStringOctaves[stringId];
        var openStringCanonicalId := IndexOf(openStringNote, CanonicalNotes[..]);
        SearchFindsChromaticIndex(openStringNote);
        FillString(cells, stringId, openStringOctave, openStringCanonicalId);
      }
      musicalNotes := cells;
    }
  }

  /**
   * The inner loop of the fretboard construction: cell `f` of string
   * `stringId` gets the name `alphabet[(id + f) % 12]` and the octave
   * `octave + (id + f) / 12`, for the open string's chromatic index `id`.
   */
  method FillString(cells: array2<MusicalNote>, stringId: int, openStringOctave: int, openStringCanonicalId: int)
    requires cells.Length0 == NumStrings && cells.Length1 == NumFrets
    requires 0 <= stringId < NumStrings
    requires openStringOctave == OpenStringOctaves[stringId]
    requires openStringCanonicalId == ChromaticIndex(OpenStringNotes[stringId])
    modifies cells
    ensures forall f :: 0 <= f < NumFrets ==> cells[stringId, f] == NoteAt(Coordinate(stringId, f))
    ensures forall s, f :: 0 <= s < NumStrings && s != stringId && 0 <= f < NumFrets ==>
              cells[s, f] == old(cells[s, f])
  {
    for fretId := 0 to NumFrets
      invariant forall s, f :: 0 <= s < NumStrings && s != stringId && 0 <= f < NumFrets ==>
                  cells[s, f] == old(cells[s, f])
      invariant forall f :: 0 <= f < fretId ==> cells[stringId, f] == NoteAt(Coordinate(stringId, f))
    {
      // Both operands are non-negative, so Go's % and / agree with Dafny's here.
      cells[stringId, fretId] := MusicalNote(
        CanonicalNotes[(openStringCanonicalId + fretId) % NumCanonicalNotes],
        openStringOctave + (openStringCanonicalId + fretId) / NumCanonicalNotes);
    }
  }

  /** The coordinates of note `n` on string `s` with fret below `f`, by fret. */
  function RowUpTo(n: MusicalNote, s: int, f: int): seq<Coordinate>
    requires 0 <= s < NumStrings && 0 <= f <= NumFrets
  {
    if f == 0 then []
    else
      var c := Coordinate(s, f - 1);
      RowUpTo(n, s, f - 1) + if NoteAt(c) == n then [c] else []
  }

  /** Two ordered runs, the first wholly before the second, make an ordered run. */
  lemma OrderedConcat(a: seq<Coordinate>, b: seq<Coordinate>)
    requires Ordered(a) && Ordered(b)
    requires forall x, y :: x in a && y in b ==> Before(x, y)
    ensures Ordered(a + b)
  {
    forall i, j | 0 <= i < j < |a + b|
      ensures Before((a + b)[i], (a + b)[j])
    {
      if j < |a| {
        assert Before(a[i], a[j]);
      } else if i < |a| {
        assert a[i] in a && b[j - |a|] in b;
      } else {
        assert Before(b[i - |a|], b[j - |a|]);
      }
    }
  }

  /** A row prefix holds exactly the matching frets below `f`. */
  lemma {:induction false} RowUpToMembers(n: MusicalNote, s: int, f: int)
    requires 0 <= s < NumStrings && 0 <= f <= NumFrets
    ensures forall c :: c in RowUpTo(n, s, f) <==> c.stringId == s && 0 <= c.fretId < f && NoteAt(c) == n
  {
    if f > 0 {
      RowUpToMembers(n, s, f - 1);
    }
  }

  /** A row prefix lies on its string below fret `f`, in fret order. */
  lemma {:induction false} RowUpToOrdered(n: MusicalNote, s: int, f: int)
    requires 0 <= s < NumStrings && 0 <= f <= NumFrets
    ensures forall c :: c in RowUpTo(n, s, f) ==> c.stringId == s && 0 <= c.fretId < f
    ensures Ordered(RowUpTo(n, s, f))
  {
    if f > 0 {
      RowUpToOrdered(n, s, f - 1);
      var c := Coordinate(s, f - 1);
      var last := if NoteAt(c) == n then [c] else [];
      OrderedConcat(RowUpTo(n, s, f - 1), last);
    }
  }

  /** The coordinates of note `n` on the strings below `s`, by string then fret. */
  function BoardUpTo(n: MusicalNote, s: int): seq<Coordinate>
    requires 0 <= s <= NumStrings
  {
    if s == 0 then [] else BoardUpTo(n, s - 1) + RowUpTo(n, s - 1, NumFrets)
  }

  /** The strings below `s` hold exactly the matching coordinates. */
  lemma {:induction false} BoardUpToMembers(n: MusicalNote, s: int)
    requires 0 <= s <= NumStrings
    ensures forall c :: c in BoardUpTo(n, s) <==> 0 <= c.stringId < s && OnBoard(c) && NoteAt(c) == n
  {
    if s > 0 {
      BoardUpToMembers(n, s - 1);
      RowUpToMembers(n, s - 1, NumFrets);
    }
  }

  /** The strings below `s` are listed in board order. */
  lemma {:induction false} BoardUpToOrdered(n: MusicalNote, s: int)
    requires 0 <= s <= NumStrings
    ensures forall c :: c in BoardUpTo(n, s) ==> 0 <= c.stringId < s
    ensures Ordered(BoardUpTo(n, s))
  {
    if s > 0 {
      var done, row := BoardUpTo(n, s - 1), RowUpTo(n, s - 1, NumFrets);
      BoardUpToOrdered(n, s - 1);
      RowUpToOrdered(n, s - 1, NumFrets);
      forall x, y | x in done && y in row
        ensures Before(x, y)
      {
        assert x.stringId < s - 1 == y.stringId;
      }
      OrderedConcat(done, row);
      assert BoardUpTo(n, s) == done + row;
    }
  }

  /**
   * The inverse lookup: every coordinate producing `n`, string by string and
   * fret by fret. Its properties are stated by `CoordinatesOfSpec`.
   */
  function CoordinatesOf(n: MusicalNote): seq<Coordinate> {
    BoardUpTo(n, NumStrings)
  }

  /**
   * The lookup holds exactly the coordinates producing `n`, each once, ordered
   * by string then fret; it is empty when `n` is not on the board.
   */
  lemma CoordinatesOfSpec(n: MusicalNote)
    ensures forall c :: c in CoordinatesOf(n) <==> OnBoard(c) && NoteAt(c) == n
    ensures Ordered(CoordinatesOf(n))
  {
    BoardUpToMembers(n, NumStrings);
    BoardUpToOrdered(n, NumStrings);
  }

  /** Scans the table string by string, fret by fret, collecting matches. */
  method GetMusicalNoteCoordinates(n: MusicalNote, fretboard: Fretboard) returns (result: seq<Coordinate>)
    requires fretboard.Valid()
    ensures result == CoordinatesOf(n)
    ensures forall c :: c in result <==> OnBoard(c) && NoteAt(c) == n
    ensures Ordered(result)
  {
    result := [];
    for stringId := 0 to NumStrings
      invariant result == BoardUpTo(n, stringId)
    {
      for fretId := 0 to NumFrets
        invariant result == BoardUpTo(n, stringId) + RowUpTo(n, stringId, fretId)
      {
        if fretboard.musicalNotes[stringId, fretId] == n {
          result := result + [Coordinate(stringId, fretId)];
        }
      }
    }
    CoordinatesOfSpec(n);
  }

  /** The keys of the inverse map: every name of the alphabet in octaves 2..6. */
  predicate IsIndexedNote(k: MusicalNote) {
    MinOctave <= k.octave <= MaxOctave
  }

  /** Builds the inverse map octave by octave, name by name. */
  method GetMusicalNoteToCoordinatesMap(fretboard: Fretboard) returns (result: map<MusicalNote, seq<Coordinate>>)
    requires fretboard.Valid()
    ensures forall k :: k in result <==> IsIndexedNote(k)
    ensures forall k :: k in result ==> result[k] == CoordinatesOf(k)
    ensures forall k, c :: k in result && c in result[k] ==> OnBoard(c) && NoteAt(c) == k
    ensures forall c :: OnBoard(c) ==> NoteAt(c) in result && c in result[NoteAt(c)]
  {
    result := map[];
    for octave := MinOctave to MaxOctave + 1
      invariant forall k :: k in result <==> MinOctave <= k.octave < octave
      invariant forall k :: k in result ==> result[k] == CoordinatesOf(k)
    {
      for j := 0 to NumCanonicalNotes
        invariant forall k :: k in result <==>
                    MinOctave <= k.octave < octave || (k.octave == octave && ChromaticIndex(k.note) < j)
        invariant forall k :: k in result ==> result[k] == CoordinatesOf(k)
      {
        var musicalNote := MusicalNote(CanonicalNotes[j], octave);
        IndexOfAlphabet(j);
        forall name | ChromaticIndex(name) == j
          ensures name == CanonicalNotes[j]
        {
          AlphabetAt(name);
        }
        var coords := GetMusicalNoteCoordinates(musicalNote, fretboard);
        result := result[musicalNote := coords];
      }
    }
    forall k | k in result
      ensures forall c :: c in result[k] ==> OnBoard(c) && NoteAt(c) == k
    {
      CoordinatesOfSpec(k);
    }
    forall c | OnBoard(c)
      ensures NoteAt(c) in result && c in result[NoteAt(c)]
    {
      NoteAtOctaveRange(c);
      CoordinatesOfSpec(NoteAt(c));
    }
  }
}
