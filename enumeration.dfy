/**
 * Fingering enumeration: every way of playing a scale note by note, as the
 * recursive cross-product of each note's coordinates on the board.
 */
module Enumeration {
  import opened Notes
  import opened Board

  /** A fingering realizes a scale when its i-th coordinate produces the i-th note. */
  predicate Realizes(p: seq<Coordinate>, scale: seq<MusicalNote>) {
    |p| == |scale| && forall k :: 0 <= k < |p| ==> OnBoard(p[k]) && NoteAt(p[k]) == scale[k]
  }

  /** The one-note case of the program: each coordinate wrapped in its own sequence. */
  function Singletons(coords: seq<Coordinate>): seq<seq<Coordinate>> {
    seq(|coords|, i requires 0 <= i < |coords| => [coords[i]])
  }

  /** The inner loop of the program: one coordinate put in front of every sub-fingering. */
  function Prepend(c: Coordinate, subs: seq<seq<Coordinate>>): seq<seq<Coordinate>> {
    seq(|subs|, j requires 0 <= j < |subs| => [c] + subs[j])
  }

  /** The outer loop of the program: every coordinate, in order, in front of every sub-fingering. */
  function Cross(coords: seq<Coordinate>, subs: seq<seq<Coordinate>>): seq<seq<Coordinate>> {
    if coords == [] then [] else Prepend(coords[0], subs) + Cross(coords[1..], subs)
  }

  /**
   * The enumeration of the program, with the fretboard lookup replaced by the
   * inverse lookup it computes: nothing for an empty scale or for a first note
   * with no coordinates, one singleton per coordinate for a one-note scale,
   * and otherwise the cross-product with the enumeration of the rest.
   */
  function AllFretboardSequences(scale: seq<MusicalNote>): seq<seq<Coordinate>> {
    if |scale| == 0 then []
    else
      var coords := CoordinatesOf(scale[0]);
      if coords == [] then []
      else if |scale| == 1 then Singletons(coords)
      else Cross(coords, AllFretboardSequences(scale[1..]))
  }

  /** The number of fingerings the product formula predicts: the product of the candidate counts. */
  function CandidateProduct(scale: seq<MusicalNote>): nat {
    if |scale| == 0 then 1 else |CoordinatesOf(scale[0])| * CandidateProduct(scale[1..])
  }

  /** Lexicographic order on fingerings, comparing coordinates by string then fret. */
  predicate LexLess(a: seq<Coordinate>, b: seq<Coordinate>) {
    |a| > 0 && |b| > 0 && (Before(a[0], b[0]) || (a[0] == b[0] && LexLess(a[1..], b[1..])))
  }

  /** Strictly increasing in lexicographic order, hence free of repetitions. */
  predicate LexSorted(ps: seq<seq<Coordinate>>) {
    forall i, j :: 0 <= i < j < |ps| ==> LexLess(ps[i], ps[j])
  }

  lemma {:induction false} LexLessIrreflexive(a: seq<Coordinate>)
    ensures !LexLess(a, a)
  {
    if |a| > 0 {
      LexLessIrreflexive(a[1..]);
    }
  }

  /** A fingering is in the cross-product exactly when its head is a candidate and its tail a sub-fingering. */
  lemma {:induction false} CrossMembers(coords: seq<Coordinate>, subs: seq<seq<Coordinate>>)
    ensures forall q :: q in Cross(coords, subs) <==> |q| > 0 && q[0] in coords && q[1..] in subs
  {
    if coords != [] {
      CrossMembers(coords[1..], subs);
      var here, rest := Prepend(coords[0], subs), Cross(coords[1..], subs);
      forall q
        ensures q in here + rest <==> |q| > 0 && q[0] in coords && q[1..] in subs
      {
        if q in here {
          var j :| 0 <= j < |subs| && here[j] == q;
          assert q[1..] == subs[j];
        }
        if |q| > 0 && q[0] == coords[0] && q[1..] in subs {
          var j :| 0 <= j < |subs| && subs[j] == q[1..];
          assert q == [coords[0]] + q[1..];
          assert here[j] == q;
        }
        if |q| > 0 {
          assert coords == [coords[0]] + coords[1..];
          assert q[0] in coords <==> q[0] == coords[0] || q[0] in coords[1..];
        }
      }
    }
  }

  /** The cross-product has one fingering per pair of candidate and sub-fingering. */
  lemma {:induction false} CrossLength(coords: seq<Coordinate>, subs: seq<seq<Coordinate>>)
    ensures |Cross(coords, subs)| == |coords| * |subs|
  {
    if coords != [] {
      CrossLength(coords[1..], subs);
      calc {
        |Cross(coords, subs)|;
        |subs| + |Cross(coords[1..], subs)|;
        |subs| + (|coords| - 1) * |subs|;
        |coords| * |subs|;
      }
    }
  }

  /** Two sorted runs, every element of the first below every element of the second, make a sorted run. */
  lemma LexSortedConcat(a: seq<seq<Coordinate>>, b: seq<seq<Coordinate>>)
    requires LexSorted(a) && LexSorted(b)
    requires forall x, y :: x in a && y in b ==> LexLess(x, y)
    ensures LexSorted(a + b)
  {
    forall i, j | 0 <= i < j < |a + b|
      ensures LexLess((a + b)[i], (a + b)[j])
    {
      if j < |a| {
        assert LexLess(a[i], a[j]);
      } else if i < |a| {
        assert a[i] in a && b[j - |a|] in b;
      } else {
        assert LexLess(b[i - |a|], b[j - |a|]);
      }
    }
  }

  /**
   * With the candidates in coordinate order and the sub-fingerings sorted, the
   * cross-product is sorted: the program's nested loops walk it in
   * lexicographic order of candidate index.
   */
  lemma {:induction false} CrossSorted(coords: seq<Coordinate>, subs: seq<seq<Coordinate>>)
    requires Ordered(coords) && LexSorted(subs)
    ensures LexSorted(Cross(coords, subs))
  {
    if coords != [] {
      var c := coords[0];
      var here, rest := Prepend(c, subs), Cross(coords[1..], subs);
      assert Ordered(coords[1..]);
      CrossSorted(coords[1..], subs);
      forall i, j | 0 <= i < j < |here|
        ensures LexLess(here[i], here[j])
      {
        assert here[i][1..] == subs[i] && here[j][1..] == subs[j];
      }
      CrossMembers(coords[1..], subs);
      forall x, y | x in here && y in rest
        ensures LexLess(x, y)
      {
        var k :| 0 <= k < |coords[1..]| && coords[1..][k] == y[0];
        assert Before(coords[0], coords[k + 1]);
      }
      LexSortedConcat(here, rest);
    }
  }

  /** Realizing a scale is realizing its first note and then the rest of it. */
  lemma RealizesCons(p: seq<Coordinate>, scale: seq<MusicalNote>)
    requires |p| > 0 && |scale| > 0
    ensures Realizes(p, scale) <==>
              OnBoard(p[0]) && NoteAt(p[0]) == scale[0] && Realizes(p[1..], scale[1..])
  {
    if OnBoard(p[0]) && NoteAt(p[0]) == scale[0] && Realizes(p[1..], scale[1..]) {
      forall k | 0 <= k < |p|
        ensures OnBoard(p[k]) && NoteAt(p[k]) == scale[k]
      {
        if k > 0 {
          assert p[k] == p[1..][k - 1];
        }
      }
    }
  }

  /**
   * The enumeration holds exactly the fingerings that realize a non-empty
   * scale: each has the scale's length and puts each note on one of its
   * coordinates.
   */
  lemma {:induction false} EnumerationMembers(scale: seq<MusicalNote>)
    ensures forall p :: p in AllFretboardSequences(scale) <==> |scale| > 0 && Realizes(p, scale)
  {
    if |scale| > 0 {
      var coords := CoordinatesOf(scale[0]);
      CoordinatesOfSpec(scale[0]);
      if coords == [] {
      } else if |scale| == 1 {
        forall p
          ensures p in Singletons(coords) <==> Realizes(p, scale)
        {
          if Realizes(p, scale) {
            var k :| 0 <= k < |coords| && coords[k] == p[0];
            assert p == Singletons(coords)[k];
          }
        }
      } else {
        EnumerationMembers(scale[1..]);
        CrossMembers(coords, AllFretboardSequences(scale[1..]));
        forall p
          ensures p in AllFretboardSequences(scale) <==> Realizes(p, scale)
        {
          if |p| > 0 {
            RealizesCons(p, scale);
          }
        }
      }
    }
  }

  /** The enumeration has as many fingerings as the product of the candidate counts. */
  lemma {:induction false} EnumerationLength(scale: seq<MusicalNote>)
    requires |scale| > 0
    ensures |AllFretboardSequences(scale)| == CandidateProduct(scale)
  {
    var coords := CoordinatesOf(scale[0]);
    if coords == [] {
    } else if |scale| == 1 {
      assert CandidateProduct(scale[1..]) == 1;
    } else {
      EnumerationLength(scale[1..]);
      CrossLength(coords, AllFretboardSequences(scale[1..]));
    }
  }

  /** A product of naturals vanishes exactly when a factor does. */
  lemma ZeroProduct(a: nat, b: nat)
    ensures a * b == 0 <==> a == 0 || b == 0
  {
    if a > 0 && b > 0 {
      assert a * b >= b by {
        assert a * b == (a - 1) * b + b;
      }
    }
  }

  /** The product of the candidate counts is zero exactly when some note has no candidate. */
  lemma {:induction false} CandidateProductZero(scale: seq<MusicalNote>)
    ensures CandidateProduct(scale) == 0 <==> exists k :: 0 <= k < |scale| && CoordinatesOf(scale[k]) == []
  {
    if |scale| > 0 {
      var tail := scale[1..];
      CandidateProductZero(tail);
      var h := |CoordinatesOf(scale[0])|;
      ZeroProduct(h, CandidateProduct(tail));
      if CandidateProduct(scale) == 0 {
        if h == 0 {
          assert CoordinatesOf(scale[0]) == [];
        } else {
          var k :| 0 <= k < |tail| && CoordinatesOf(tail[k]) == [];
          assert CoordinatesOf(scale[k + 1]) == [];
        }
      }
      if exists k :: 0 <= k < |scale| && CoordinatesOf(scale[k]) == [] {
        var k :| 0 <= k < |scale| && CoordinatesOf(scale[k]) == [];
        if k > 0 {
          assert CoordinatesOf(tail[k - 1]) == [];
        }
      }
    }
  }

  /**
   * The enumeration is empty exactly for the empty scale and for a scale with
   * a note that has no coordinate, whatever the other notes' counts.
   */
  lemma EnumerationEmpty(scale: seq<MusicalNote>)
    ensures AllFretboardSequences(scale) == [] <==>
              |scale| == 0 || exists k :: 0 <= k < |scale| && CoordinatesOf(scale[k]) == []
  {
    if |scale| > 0 {
      EnumerationLength(scale);
      CandidateProductZero(scale);
    }
  }

  /** The enumeration lists its fingerings in strictly increasing lexicographic order. */
  lemma {:induction false} EnumerationSorted(scale: seq<MusicalNote>)
    ensures LexSorted(AllFretboardSequences(scale))
  {
    if |scale| > 0 {
      var coords := CoordinatesOf(scale[0]);
      CoordinatesOfSpec(scale[0]);
      if coords == [] {
      } else if |scale| == 1 {
        forall i, j | 0 <= i < j < |coords|
          ensures LexLess(Singletons(coords)[i], Singletons(coords)[j])
        {
          assert Before(coords[i], coords[j]);
        }
      } else {
        EnumerationSorted(scale[1..]);
        CrossSorted(coords, AllFretboardSequences(scale[1..]));
      }
    }
  }

  /** Consequently no fingering is listed twice. */
  lemma EnumerationDistinct(scale: seq<MusicalNote>)
    ensures forall i, j :: 0 <= i < j < |AllFretboardSequences(scale)| ==>
              AllFretboardSequences(scale)[i] != AllFretboardSequences(scale)[j]
  {
    EnumerationSorted(scale);
    var all := AllFretboardSequences(scale);
    forall i, j | 0 <= i < j < |all|
      ensures all[i] != all[j]
    {
      LexLessIrreflexive(all[i]);
    }
  }

  /** A one-note scale gives one singleton per candidate, in the lookup's order. */
  lemma EnumerationSingleNote(n: MusicalNote)
    ensures |AllFretboardSequences([n])| == |CoordinatesOf(n)|
    ensures forall i :: 0 <= i < |CoordinatesOf(n)| ==> AllFretboardSequences([n])[i] == [CoordinatesOf(n)[i]]
  {
  }
}
