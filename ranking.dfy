/**
 * The specification of `Sorter.GetIndexesOfTopThreeScores`: a single pass
 * keeping the three largest scores seen so far, seeded with 0, followed by
 * `List.IndexOf` on each of the three values.
 *
 * Scores are reals; the comparisons are those of the source.
 */
module Ranking {

  /** The values the pass tracks, `first >= second >= third`. */
  datatype Top = Top(first: real, second: real, third: real)

  const Seed: Top := Top(0.0, 0.0, 0.0)

  /** One iteration of the pass. */
  function Step(t: Top, x: real): Top
  {
    if x > t.first then Top(x, t.first, t.second)
    else if x > t.second then Top(t.first, x, t.second)
    else if x > t.third then Top(t.first, t.second, x)
    else t
  }

  /** The tracked values after the pass over `s`. */
  function Scan(s: seq<real>): Top
  {
    if s == [] then Seed else Step(Scan(s[..|s| - 1]), s[|s| - 1])
  }

  /** The number of scores strictly above `v`. */
  function CountAbove(s: seq<real>, v: real): nat
  {
    if s == [] then 0 else CountAbove(s[..|s| - 1], v) + (if s[|s| - 1] > v then 1 else 0)
  }

  /** The number of scores at or above `v`. */
  function CountAtLeast(s: seq<real>, v: real): nat
  {
    if s == [] then 0 else CountAtLeast(s[..|s| - 1], v) + (if s[|s| - 1] >= v then 1 else 0)
  }

  /**
   * `v` is the k-th largest positive score of `s` counted with multiplicity,
   * or 0 when `s` has fewer than k positive scores.
   */
  ghost predicate IsKthLargest(s: seq<real>, v: real, k: nat)
  {
    && v >= 0.0
    && CountAbove(s, v) < k
    && (v == 0.0 || CountAtLeast(s, v) >= k)
  }

  /** `List.IndexOf`: the first position holding `v`, or -1. */
  function IndexOf(s: seq<real>, v: real): (r: int)
    ensures -1 <= r < |s|
    ensures r == -1 <==> v !in s
    ensures 0 <= r ==> s[r] == v && forall j :: 0 <= j < r ==> s[j] != v
  {
    if s == [] then -1
    else if s[0] == v then 0
    else
      var k := IndexOf(s[1..], v);
      if k == -1 then -1 else k + 1
  }

  /** The three indices `GetIndexesOfTopThreeScores` writes to its out parameters. */
  function TopIndexes(s: seq<real>): (int, int, int)
  {
    if |s| < 3 then (0, 0, 0)
    else
      var t := Scan(s);
      (IndexOf(s, t.first), IndexOf(s, t.second), IndexOf(s, t.third))
  }

  // ---------------------------------------------------------------------
  // Counting
  // ---------------------------------------------------------------------

  lemma ScanStep(s: seq<real>, x: real)
    ensures Scan(s + [x]) == Step(Scan(s), x)
    ensures forall v :: CountAbove(s + [x], v) == CountAbove(s, v) + (if x > v then 1 else 0)
    ensures forall v :: CountAtLeast(s + [x], v) == CountAtLeast(s, v) + (if x >= v then 1 else 0)
  {
    assert (s + [x])[..|s|] == s;
  }

  lemma {:induction false} CountAboveAntitone(s: seq<real>, v: real, w: real)
    requires v <= w
    ensures CountAbove(s, w) <= CountAbove(s, v)
  {
    if s != [] {
      CountAboveAntitone(s[..|s| - 1], v, w);
    }
  }

  lemma {:induction false} CountAtLeastAntitone(s: seq<real>, v: real, w: real)
    requires v <= w
    ensures CountAtLeast(s, w) <= CountAtLeast(s, v)
  {
    if s != [] {
      CountAtLeastAntitone(s[..|s| - 1], v, w);
    }
  }

  /** Every score at or above `w` is strictly above any `v < w`. */
  lemma {:induction false} CountAtLeastBelowAbove(s: seq<real>, v: real, w: real)
    requires v < w
    ensures CountAtLeast(s, w) <= CountAbove(s, v)
  {
    if s != [] {
      CountAtLeastBelowAbove(s[..|s| - 1], v, w);
    }
  }

  lemma {:induction false} CountAboveNone(s: seq<real>, v: real)
    ensures CountAbove(s, v) == 0 <==> forall i :: 0 <= i < |s| ==> s[i] <= v
  {
    if s != [] {
      CountAboveNone(s[..|s| - 1], v);
    }
  }

  /** More scores at or above `v` than strictly above it: some score equals `v`. */
  lemma {:induction false} CountGapMeansPresent(s: seq<real>, v: real)
    requires CountAbove(s, v) < CountAtLeast(s, v)
    ensures v in s
  {
    var init := s[..|s| - 1];
    if s[|s| - 1] != v {
      CountGapMeansPresent(init, v);
      assert init[IndexOf(init, v)] == s[IndexOf(init, v)];
    }
  }

  /** Fewer scores above `v` than scores in all: some score is at most `v`. */
  lemma {:induction false} CountAboveShort(s: seq<real>, v: real)
    requires CountAbove(s, v) < |s|
    ensures exists i :: 0 <= i < |s| && s[i] <= v
  {
    var init := s[..|s| - 1];
    if s[|s| - 1] > v {
      CountAboveShort(init, v);
      var i :| 0 <= i < |init| && init[i] <= v;
      assert s[i] == init[i];
    }
  }

  /** Two positions holding at least `v` count twice. */
  lemma {:induction false} CountAtLeastTwo(s: seq<real>, i: int, j: int, v: real)
    requires 0 <= i < j < |s| && s[i] >= v && s[j] >= v
    ensures CountAtLeast(s, v) >= 2
  {
    var init := s[..|s| - 1];
    if j < |s| - 1 {
      assert init[i] == s[i] && init[j] == s[j];
      CountAtLeastTwo(init, i, j, v);
    } else {
      assert init[i] == s[i];
      CountAtLeastOne(init, i, v);
    }
  }

  lemma {:induction false} CountAtLeastOne(s: seq<real>, i: int, v: real)
    requires 0 <= i < |s| && s[i] >= v
    ensures CountAtLeast(s, v) >= 1
  {
    var init := s[..|s| - 1];
    if i < |s| - 1 {
      assert init[i] == s[i];
      CountAtLeastOne(init, i, v);
    }
  }

  // ---------------------------------------------------------------------
  // What the pass computes
  // ---------------------------------------------------------------------

  /**
   * The pass keeps `first >= second >= third >= 0`, and they are the three
   * largest positive scores counted with multiplicity, 0 standing for each
   * one that is missing.
   */
  lemma {:induction false} ScanTopThree(s: seq<real>)
    ensures Scan(s).first >= Scan(s).second >= Scan(s).third >= 0.0
    ensures IsKthLargest(s, Scan(s).first, 1)
    ensures IsKthLargest(s, Scan(s).second, 2)
    ensures IsKthLargest(s, Scan(s).third, 3)
  {
    if s != [] {
      var p, x := s[..|s| - 1], s[|s| - 1];
      assert s == p + [x];
      ScanTopThree(p);
      ScanStep(p, x);
      var t := Scan(p);
      if x > t.first {
        CountAboveAntitone(p, t.first, x);
      } else if x > t.second {
        CountAboveAntitone(p, t.second, x);
        CountAtLeastAntitone(p, x, t.first);
      } else if x > t.third {
        CountAboveAntitone(p, t.third, x);
        CountAtLeastAntitone(p, x, t.second);
      }
    }
  }

  /** The characterisation of ScanTopThree admits one value per rank. */
  lemma KthLargestUnique(s: seq<real>, v: real, w: real, k: nat)
    requires IsKthLargest(s, v, k) && IsKthLargest(s, w, k)
    ensures v == w
  {
    if v < w {
      CountAtLeastBelowAbove(s, v, w);
    } else if w < v {
      CountAtLeastBelowAbove(s, w, v);
    }
  }

  /** `first` is the maximum of 0 and all the scores. */
  lemma ScanFirstIsMaximum(s: seq<real>)
    ensures Scan(s).first >= 0.0
    ensures forall i :: 0 <= i < |s| ==> s[i] <= Scan(s).first
    ensures Scan(s).first == 0.0 || Scan(s).first in s
  {
    var f := Scan(s).first;
    ScanTopThree(s);
    CountAboveNone(s, f);
    if f != 0.0 {
      CountGapMeansPresent(s, f);
    }
  }

  /**
   * With no negative score and at least three of them, each tracked value
   * occurs in the vector, so `IndexOf` finds all three.
   */
  lemma TopValuesPresent(s: seq<real>)
    requires |s| >= 3
    requires forall i :: 0 <= i < |s| ==> s[i] >= 0.0
    ensures Scan(s).first in s && Scan(s).second in s && Scan(s).third in s
  {
    var t := Scan(s);
    ScanTopThree(s);
    KthValuePresent(s, t.first, 1);
    KthValuePresent(s, t.second, 2);
    KthValuePresent(s, t.third, 3);
  }

  lemma KthValuePresent(s: seq<real>, v: real, k: nat)
    requires 1 <= k <= |s|
    requires forall i :: 0 <= i < |s| ==> s[i] >= 0.0
    requires IsKthLargest(s, v, k)
    ensures v in s
  {
    if v == 0.0 {
      CountAboveShort(s, v);
      var i :| 0 <= i < |s| && s[i] <= v;
      assert s[i] == 0.0;
    } else {
      CountGapMeansPresent(s, v);
    }
  }

  // ---------------------------------------------------------------------
  // The indices
  // ---------------------------------------------------------------------

  /**
   * Each index is the first position holding its tracked value, or -1 when
   * that value is nowhere in the vector; fewer than three scores give 0, 0, 0.
   */
  lemma TopIndexesMeaning(s: seq<real>)
    ensures |s| < 3 ==> TopIndexes(s) == (0, 0, 0)
    ensures |s| >= 3 ==>
      var (i0, i1, i2) := TopIndexes(s);
      var t := Scan(s);
      && (i0 == -1 <==> t.first !in s) && (i1 == -1 <==> t.second !in s) && (i2 == -1 <==> t.third !in s)
      && (0 <= i0 ==> s[i0] == t.first && forall j :: 0 <= j < i0 ==> s[j] != t.first)
      && (0 <= i1 ==> s[i1] == t.second && forall j :: 0 <= j < i1 ==> s[j] != t.second)
      && (0 <= i2 ==> s[i2] == t.third && forall j :: 0 <= j < i2 ==> s[j] != t.third)
  {
  }

  /**
   * The tie quirk: when the maximum score occurs at two positions, the first
   * two indices coincide, because both values are looked up with `IndexOf`.
   */
  lemma TiedMaximumCollides(s: seq<real>, i: int, j: int)
    requires |s| >= 3
    requires 0 <= i < j < |s| && s[i] == s[j]
    requires forall m :: 0 <= m < |s| ==> s[m] <= s[i]
    ensures TopIndexes(s).0 == TopIndexes(s).1
  {
    var t := Scan(s);
    ScanTopThree(s);
    ScanFirstIsMaximum(s);
    var top := t.first;
    // The maximum of the scores (or 0, if it is larger) is also the second largest.
    CountAboveNone(s, top);
    if top > 0.0 {
      CountAtLeastTwo(s, i, j, top);
    }
    assert IsKthLargest(s, top, 2);
    KthLargestUnique(s, top, t.second, 2);
  }

  /** The tie quirk on a concrete vector: the two tied slots are both reported as slot 0. */
  lemma TiedScoresExample()
    ensures TopIndexes([0.4, 0.4, 0.2]) == (0, 0, 2)
  {
    var s := [0.4, 0.4, 0.2];
    assert s[..2] == [0.4, 0.4] && [0.4, 0.4][..1] == [0.4] && [0.4][..0] == [];
    assert Scan(s) == Top(0.4, 0.4, 0.2);
  }

  /**
   * The zero-seed quirk: with a single positive score the seeds 0 stay as
   * second and third value, and a vector without a 0 gives index -1 for them.
   */
  lemma ZeroSeedExample()
    ensures TopIndexes([0.5, -0.25, -0.25]) == (0, -1, -1)
  {
    var s := [0.5, -0.25, -0.25];
    assert s[..2] == [0.5, -0.25] && [0.5, -0.25][..1] == [0.5] && [0.5][..0] == [];
    assert Scan(s) == Top(0.5, 0.0, 0.0);
    assert 0.0 !in s;
  }
}
