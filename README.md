# Guitar scale fingerings, modelled in Dafny

`generate_png_images_for_scales.go` turns a musical scale into ranked guitar
fingerings and renders the best ones as PNG images. This project models the
algorithmic part of that program and proves properties of it. The modelled
part has five pieces:

- **The fretboard.** A 6-string, 25-fret table. Each cell holds the note
  produced there: the open string's chromatic index plus the fret, wrapped
  modulo 12, with the octave carried.
- **Note lookup.** The alphabet search `indexOf`, the inverse lookup from a
  note to every (string, fret) that produces it, and the map of that inverse
  for octaves 2 to 6.
- **Scale generation.** Walks a step pattern up from a root note with the same
  wrap-and-carry rule.
- **Fingering enumeration.** The recursive cross-product of each scale note's
  candidate positions.
- **Selection.** Keeps the fingerings that never climb to a higher string,
  scores them, sorts them by score and keeps the best ten.

The per-root driver that chains these together is modelled as well, up to
the point where it hands each selected fingering to the renderer.

The Dafny modules follow the program's structure, one file each:

- `notes.dfy` (`Notes`): the constant tables; the note and coordinate
  records; Go's truncating `/` and `%`; the alphabet search; absolute pitch;
  and the wrap-and-carry transposition.
- `board.dfy` (`Board`): the layout `NoteAt`; the `Fretboard` class, whose
  constructor fills a 6 × 25 array in place; the inverse lookup and the
  inverse map.
- `scales.dfy` (`Scales`): the scale generator and its reference definition
  `ScaleOf`.
- `enumeration.dfy` (`Enumeration`): the enumeration as a recursive function,
  and its characterisation.
- `selection.dfy` (`Selection`): the consistency check, the candidate
  filter, the sort by score and the top-ten cut.
- `pipeline.dfy` (`Pipeline`): the per-root driver.

Note names are an enumeration of the twelve sharps-only spellings, in the
program's alphabet order. `Notes.Spelling` gives back the string the program
uses for each name, and `Notes.SearchFindsSpelling` shows that the program's
string search agrees with the enumeration. The program never builds any other name, since its names
come only from the constant tables.

The score is the parameter `score: seq<Coordinate> -> real`. The program's
score is `clusterDistance`, which sums distances to the centroid in floating
point. Everything proved about selection therefore holds for any score
function.

## Model

| member | source | states |
|---|---|---|
| Notes.GoDivision | generate_png_images_for_scales.go:146-147 | Go's truncating quotient and remainder recombine to the dividend. The remainder is smaller than the divisor in magnitude and takes the dividend's sign. On non-negative operands both agree with the Euclidean operators. |
| Notes.FirstIndexSpec | generate_png_images_for_scales.go:68-75 | The reference search returns the smallest index holding the element, or -1 exactly when the element is absent. |
| Notes.IndexOf | generate_png_images_for_scales.go:68-75 | The linear search returns the first matching index, no earlier entry matches, and it returns -1 exactly when no entry matches. |
| Notes.FirstIndexUnique | generate_png_images_for_scales.go:68-75 | An index holding the first occurrence is the one the search returns. |
| Notes.SearchFindsChromaticIndex | generate_png_images_for_scales.go:88 | Searching the alphabet finds every name, including every open-string name, at its chromatic index, so the search never returns -1. |
| Notes.ChromaticIndex | generate_png_images_for_scales.go:39-44 | A name's position in the alphabet lies in 0..11. |
| Notes.AlphabetAt | generate_png_images_for_scales.go:39-44 | The alphabet holds every name at that name's chromatic index. |
| Notes.IndexOfAlphabet | generate_png_images_for_scales.go:39-44 | The alphabet entry at index j has chromatic index j, so the alphabet has no repeated name. |
| Notes.SearchFindsSpelling | generate_png_images_for_scales.go:88 | Searching the program's string alphabet for a name's spelling finds that name's chromatic index, so lookup by string and lookup by name agree. |
| Notes.SpellingInjective | generate_png_images_for_scales.go:39-44 | Two names spelled the same are the same name, so the enumeration loses no distinction the strings make. |
| Notes.SemitoneInjective | generate_png_images_for_scales.go:54-57 | Two notes with the same absolute pitch (12 × octave + chromatic index) are the same note. |
| Notes.CarrySemitone | generate_png_images_for_scales.go:146-147 | Wrap-and-carry of an index d from C of an octave lands exactly d semitones above that C. |
| Notes.Carry | generate_png_images_for_scales.go:146-147 | Defines the wrap-and-carry rule: the note d alphabet steps above C of an octave has name alphabet[d rem 12] and octave octave + d quo 12, with Go's truncating operators, defined only where the remainder is non-negative. Its meaning is stated by `Notes.CarrySemitone`. |
| Notes.TransposeSemitone | generate_png_images_for_scales.go:146-147 | Transposing by k semitones raises the absolute pitch by exactly k. |
| Notes.Transpose | generate_png_images_for_scales.go:146-147 | Defines transposition by k as the wrap-and-carry of the root's chromatic index plus k. Its meaning is stated by `Notes.TransposeSemitone` and `Notes.TransposeZero`. |
| Notes.TransposeZero | generate_png_images_for_scales.go:146-147 | Transposing by zero gives the note back. |
| Board.NoteAt | generate_png_images_for_scales.go:91-94 | Defines the layout: the cell (s, f) holds the alphabet entry (open index + f) mod 12 with octave open octave + (open index + f) / 12. The properties follow. |
| Board.NoteAtIsTransposition | generate_png_images_for_scales.go:90-95 | The note at a cell is the open-string note transposed up by the fret number, using the same rule as the scale generator. |
| Board.NoteAtSemitone | generate_png_images_for_scales.go:90-95 | A cell's absolute pitch is the open string's pitch plus the fret. |
| Board.NextFretIsNextSemitone | generate_png_images_for_scales.go:90-95 | One fret up on a string is exactly one semitone up. |
| Board.NoteAtOctaveRange | generate_png_images_for_scales.go:128 | Every note on the board lies in octaves 2..6, the octaves the inverse map covers. |
| Board.Fretboard.constructor | generate_png_images_for_scales.go:77-98 | The freshly allocated 6 × 25 table holds, at every cell, the wrapped name and carried octave of the open string plus the fret. |
| Board.FillString | generate_png_images_for_scales.go:90-95 | One pass of the inner loop sets every cell of the string to the layout note and leaves the other strings unchanged. |
| Board.RowUpToMembers | generate_png_images_for_scales.go:114-118 | The scan of one string up to fret f collects exactly the cells on that string below f that hold the note. |
| Board.RowUpToOrdered | generate_png_images_for_scales.go:114-118 | That scan lies on its string below fret f and lists frets in increasing order. |
| Board.BoardUpToMembers | generate_png_images_for_scales.go:113-119 | The scan of the strings below s collects exactly the matching cells on those strings. |
| Board.BoardUpToOrdered | generate_png_images_for_scales.go:113-119 | That scan lists its cells by string, then by fret. |
| Board.CoordinatesOf | generate_png_images_for_scales.go:110-122 | Defines the inverse lookup as the scan of every string, then every fret, collecting the cells that hold the note. `Board.CoordinatesOfSpec` states what it holds. |
| Board.CoordinatesOfSpec | generate_png_images_for_scales.go:110-122 | The inverse lookup holds a coordinate exactly when the coordinate is on the board and holds the note. It lists each coordinate once, by string then fret. |
| Board.GetMusicalNoteCoordinates | generate_png_images_for_scales.go:110-122 | Scanning the filled table returns exactly the coordinates whose cell equals the note, ordered by string then fret. It is empty when the note is not on the board. |
| Board.GetMusicalNoteToCoordinatesMap | generate_png_images_for_scales.go:124-136 | The keys are exactly the notes of octaves 2..6 and each value is that note's inverse lookup. Every coordinate under a key holds that key. Every board coordinate appears under its own note. |
| Scales.ScaleUpTo | generate_png_images_for_scales.go:143-151 | The first n notes of the scale number exactly n. |
| Scales.ScaleOf | generate_png_images_for_scales.go:138-153 | The scale has one note per step. |
| Scales.ScaleUpToAt | generate_png_images_for_scales.go:145-150 | Note i of any prefix is the root transposed by the sum of the first i steps. |
| Scales.ScaleAt | generate_png_images_for_scales.go:145-150 | Note i of the scale is the root transposed by steps[0] + … + steps[i-1]. |
| Scales.NonNegativeStepsAreValid | generate_png_images_for_scales.go:146-147 | A pattern without downward steps never produces a negative alphabet index. |
| Scales.PrefixSumNonNegative | generate_png_images_for_scales.go:150 | The running offset of a pattern without downward steps is never negative. |
| Scales.GetScale | generate_png_images_for_scales.go:138-153 | The generator returns the reference scale: one note per step, note i being the root carried up by the running offset. |
| Scales.ScaleStartsAtRoot | generate_png_images_for_scales.go:144-148 | Note 0 of a scale from a non-empty pattern is the root. |
| Scales.ScaleSemitones | generate_png_images_for_scales.go:145-150 | Note i lies exactly steps[0] + … + steps[i-1] semitones above the root. |
| Scales.ScaleIntervals | generate_png_images_for_scales.go:145-150 | Consecutive notes lie exactly one step of the pattern apart. |
| Scales.BuiltInPatternsSpanAnOctave | generate_png_images_for_scales.go:46-52 | For both built-in patterns every root is accepted, the scale has eight notes, and note 7 is the root one octave up. |
| Scales.ScaleNoteByPitch | generate_png_images_for_scales.go:145-150 | A note with the pitch that the running offset predicts is the scale's note at that index. |
| Scales.CMinorScale | generate_png_images_for_scales.go:46-48 | C minor from any octave o is C D D# F G G# A# of octave o, then C of octave o + 1. |
| Scales.CMinorFromOctaveThree | generate_png_images_for_scales.go:46-48 | C3 with the minor pattern gives C3 D3 D#3 F3 G3 G#3 A#3 C4. |
| Enumeration.AllFretboardSequences | generate_png_images_for_scales.go:155-183 | Defines the enumeration: the singletons of the last note's candidates, with each earlier note's candidates put in front in loop order. `Enumeration.EnumerationMembers` and the lemmas after it characterise it. |
| Enumeration.CrossMembers | generate_png_images_for_scales.go:171-178 | A fingering is in the cross-product exactly when its head is a candidate and its tail is a sub-fingering. |
| Enumeration.CrossLength | generate_png_images_for_scales.go:171-178 | The cross-product has one fingering per pair of candidate and sub-fingering. |
| Enumeration.CrossSorted | generate_png_images_for_scales.go:171-178 | With ordered candidates and sorted sub-fingerings, the nested loops produce a lexicographically sorted list. |
| Enumeration.RealizesCons | generate_png_images_for_scales.go:160-161 | A fingering plays a scale exactly when its head plays the first note and its tail plays the rest. |
| Enumeration.EnumerationMembers | generate_png_images_for_scales.go:155-183 | The enumeration holds exactly the fingerings of a non-empty scale: the scale's length, with element i on a coordinate of note i. |
| Enumeration.EnumerationLength | generate_png_images_for_scales.go:155-183 | For a non-empty scale, the number of fingerings is the product of the per-note candidate counts. |
| Enumeration.CandidateProductZero | generate_png_images_for_scales.go:163 | That product is zero exactly when some note has no candidate. |
| Enumeration.EnumerationEmpty | generate_png_images_for_scales.go:155-183 | The enumeration is empty exactly for the empty scale (an empty list, not a list holding the empty fingering), or for a scale with some note that has no candidate. |
| Enumeration.EnumerationSorted | generate_png_images_for_scales.go:155-183 | The fingerings come in strictly increasing lexicographic order of coordinates, which is the candidate-index order of the loops. |
| Enumeration.EnumerationDistinct | generate_png_images_for_scales.go:155-183 | No fingering is listed twice. |
| Enumeration.EnumerationSingleNote | generate_png_images_for_scales.go:164-169 | A one-note scale gives one singleton per candidate, in candidate order. |
| Enumeration.LexLessIrreflexive | generate_png_images_for_scales.go:171-178 | No fingering precedes itself in the enumeration's order. |
| Selection.IsConsistent | generate_png_images_for_scales.go:216-227 | The early-exit loop answers true exactly when no adjacent pair climbs to a higher string index. |
| Selection.ConsistentPairwise | generate_png_images_for_scales.go:216-227 | Adjacent consistency is equivalent to string indices never increasing between any two positions. |
| Selection.ConsistentDescends | generate_png_images_for_scales.go:216-227 | In a consistent fingering a later position never has a higher string index. |
| Selection.ShortIsConsistent | generate_png_images_for_scales.go:219 | Empty and one-coordinate fingerings are consistent. |
| Selection.ConsistencyExamples | generate_png_images_for_scales.go:222-223 | Going from string 2 to string 1 is consistent. Going from string 1 to string 3 is not. |
| Selection.ConsistentScored | generate_png_images_for_scales.go:232-238 | Defines the candidate filter: the consistent inputs in input order, each paired with its score. |
| Selection.ConsistentScoredMembers | generate_png_images_for_scales.go:232-238 | A scored entry is collected exactly when it is a consistent input paired with its own score. |
| Selection.ConsistentScoredLength | generate_png_images_for_scales.go:232-238 | No more entries are collected than there are inputs. |
| Selection.InsertMultiset | generate_png_images_for_scales.go:240-242 | Inserting adds exactly the inserted entry. |
| Selection.InsertSorted | generate_png_images_for_scales.go:240-242 | Inserting into a sorted list keeps it sorted by score. |
| Selection.SortByScoreSpec | generate_png_images_for_scales.go:240-242 | The sort is a permutation of its input, with scores non-decreasing. |
| Selection.PrefixIsBest | generate_png_images_for_scales.go:244-248 | A prefix of a sorted list is sorted, is part of the list, and scores no higher than any entry it leaves out. |
| Selection.TopSelectionOfFewIsAll | generate_png_images_for_scales.go:244-245 | A top selection from at most ten candidates holds every candidate. |
| Selection.TopSelectionMembers | generate_png_images_for_scales.go:232-238 | Every entry of a top selection is a consistent input carrying its own score. |
| Selection.SelectBest | generate_png_images_for_scales.go:229-250 | Defines one reference selection, the insertion sort of the candidates cut to ten. It fixes one tie order and is used only to show that a top selection exists. |
| Selection.SelectBestSpec | generate_png_images_for_scales.go:229-250 | The reference selection is a top selection: min(candidates, 10) entries, scores non-decreasing, a sub-multiset of the candidates, and no dropped candidate scoring below a kept one. |
| Selection.ScoreAndSortFretboardSequences | generate_png_images_for_scales.go:229-250 | The collect, sort and cut loop returns a top selection of the consistent inputs, whatever the order of ties. So it keeps at most ten, all of them when there are at most ten, and each is a consistent input with its own score. |
| Selection.TopSelectionNonEmpty | generate_png_images_for_scales.go:244-248 | Whenever one input is consistent, a top selection holds at least one fingering. |
| Pipeline.StepsFor | generate_png_images_for_scales.go:338-343 | Every pattern the driver can pick, including the zero array for an unknown scale type, has eight non-negative steps, so the generator accepts every root with it. |
| Pipeline.AllPlans | generate_png_images_for_scales.go:336-372 | Defines what the driver does before selecting: for each root of the alphabet in order, its scale and all its fingerings, skipping roots with none. |
| Pipeline.PlansUpToMembers | generate_png_images_for_scales.go:345-351 | The first n roots are planned exactly when their scale has a fingering, each plan carrying that root's scale and all its fingerings. |
| Pipeline.AllPlansMembers | generate_png_images_for_scales.go:345-351 | The driver plans exactly the roots whose scale has a fingering, with that root's scale and all its fingerings. |
| Pipeline.PlansUpToBounded | generate_png_images_for_scales.go:345-351 | The first n roots yield at most n plans, all for roots among them. |
| Pipeline.PlansUpToOrdered | generate_png_images_for_scales.go:345-351 | Plans for the first n roots come in alphabet order. |
| Pipeline.AllPlansOrdered | generate_png_images_for_scales.go:345-351 | Plans come in alphabet order, at most one per root and at most twelve in all. |
| Pipeline.DriverScale | generate_png_images_for_scales.go:339-349 | Every pattern the driver can pick is accepted by the generator, and the scale it builds for a root is that root's scale. |
| Pipeline.DriverSkips | generate_png_images_for_scales.go:350 | A root whose scale has no fingering adds nothing to the results. |
| Pipeline.DriverAdds | generate_png_images_for_scales.go:350-351 | A top selection for the next root extends results that follow the plans by one result for that root and scale. |
| Pipeline.GenerateAllSequences | generate_png_images_for_scales.go:336-372 | The driver loop returns one result per planned root, in order and with the same root and scale, each holding a top selection of that root's consistent fingerings, whatever the order of ties. |
| Pipeline.ResultRoots | generate_png_images_for_scales.go:336-372 | Results that follow the plans report exactly the roots whose scale has a fingering, each once, in alphabet order, each with that root's scale. |
| Pipeline.ResultFingerings | generate_png_images_for_scales.go:345-371 | Every fingering handed to the renderer plays its root's scale note by note and never climbs to a higher string. At most ten are handed over per root. |
| Pipeline.PlayableRootIsRendered | generate_png_images_for_scales.go:345-371 | Every root whose scale has a consistent fingering is reported with at least one selected fingering, whatever the score and the order of ties. |
| Pipeline.AMajorOnAString | generate_png_images_for_scales.go:90-95 | A major from octave 2 or 3 can be played entirely on the A string, at frets 12 × (octave − 2) + 0, 2, 4, 5, 7, 9, 11, 12. |
| Pipeline.AMajorIsPlayable | generate_png_images_for_scales.go:155-183 | That A-string run is among the enumerated fingerings of A major from octave 2 or 3, and it is consistent. |
| Pipeline.AMajorIsRendered | generate_png_images_for_scales.go:336-372 | A major-scale run from octave 2 or 3 reports A with at least one fingering, whatever the score. |
| Pipeline.AMajorFromOctaveThreeIsRendered | generate_png_images_for_scales.go:390-391 | The major-scale run from octave 3 renders A major. |

## Left out

- `saveFretboardSequence` (lines 252-334) is not modelled. It rasterises with the external `gg` library, loads fonts, creates directories and writes PNG files, all of which are foreign calls and I/O. `Pipeline.GenerateAllSequences` returns what it would hand to the renderer rather than writing files, so the image paths are not modelled either.
- `main` and its flag parsing (lines 374-392) are not modelled, nor are `printFretboard` (lines 100-108) and the `Debug` prints (lines 353-365). They are command-line and console glue. The octave check in `main` is not needed: the driver is modelled for every octave, and an octave with no fingering yields no result.
- The bodies of `clusterDistance`, `euclideanDistance` and `manhattanDistance` (lines 185-209) are floating-point arithmetic with a square root. The score is an arbitrary function parameter instead.
- `sort.Slice` (line 240) is a library call and is not stable. Its algorithm is not part of this model. `Selection.SortByScore` is an insertion sort on values that stands in for it and keeps ties in input order. No contract of the selection or the driver depends on that tie order: they promise only a top selection (`Selection.IsTopSelection`), which any sort by score gives.
- Selection.ScoreAndSortFretboardSequences: the scored entries are collected and sorted as a sequence value, not in place in a slice. The in-place sort belongs to the library.
- Enumeration.AllFretboardSequences takes each note's candidates from the inverse lookup `CoordinatesOf`, not from a `Fretboard` object. `Board.GetMusicalNoteCoordinates` proves that the lookup on a filled fretboard returns exactly `CoordinatesOf`.
- Note names outside the alphabet cannot be written, since names are an enumeration of the twelve canonical spellings. For those names the program's `indexOf` returns -1 and `getScale` would index with a negative value (line 147). That path is therefore absent from the model.
- Scales.GetScale: requires `ValidScaleRequest`, which says every alphabet index the generator computes is non-negative. Go's truncating remainder is negative when the index is negative and not a multiple of 12, and on such an index the program panics. Both patterns the program uses meet the precondition (`Scales.NonNegativeStepsAreValid`).
- Go's `int` is 64 bits wide. All values here are small fret, string and octave numbers, so overflow is not modelled.
