/**
 * The air-quality classifier of the update coordinator: an ascending chain of
 * inclusive upper bounds that maps the LKI index to one of six Dutch labels.
 * Only comparisons with integer thresholds take place, so the index is a `real`.
 */
module Classifier {

  /** The labels in ascending order of the bands; the last one is the fallback. */
  const Labels: seq<string> :=
    ["goed", "matig", "onvoldoende", "slecht", "zeer slecht", "Geen data beschikbaar"]

  /** Inclusive upper bounds of the first five bands, ascending. */
  const UpperBounds: seq<real> := [3.0, 6.0, 8.0, 10.0, 11.0]

  /** The first-match-wins chain; an index above every bound keeps the default label. */
  function Classify(lki: real): (quality: string)
    ensures quality in Labels
    ensures quality == "goed" <==> lki <= 3.0
    ensures quality == "Geen data beschikbaar" <==> lki > 11.0
  {
    if lki <= 3.0 then "goed"
    else if lki <= 6.0 then "matig"
    else if lki <= 8.0 then "onvoldoende"
    else if lki <= 10.0 then "slecht"
    else if lki <= 11.0 then "zeer slecht"
    else "Geen data beschikbaar"
  }

  /** How many of `bounds` lie strictly below `lki`. */
  function BoundsBelow(bounds: seq<real>, lki: real): (n: nat)
    ensures n <= |bounds|
    ensures n == 0 <==> forall i :: 0 <= i < |bounds| ==> lki <= bounds[i]
  {
    if bounds == [] then 0
    else (if bounds[0] < lki then 1 else 0) + BoundsBelow(bounds[1..], lki)
  }

  /** Reference definition of the band: the number of upper bounds the index exceeds. */
  function Band(lki: real): (b: nat)
    ensures b < |Labels|
  {
    BoundsBelow(UpperBounds, lki)
  }

  /** Raising the index never lowers the count of bounds below it. */
  lemma {:induction false} BoundsBelowMonotone(bounds: seq<real>, a: real, b: real)
    requires a <= b
    ensures BoundsBelow(bounds, a) <= BoundsBelow(bounds, b)
  {
    if bounds != [] {
      BoundsBelowMonotone(bounds[1..], a, b);
    }
  }

  /** The six labels are pairwise different, so a label determines its band. */
  lemma LabelsDistinct()
    ensures forall i, j :: 0 <= i < j < |Labels| ==> Labels[i] != Labels[j]
  {
  }

  /** The chain agrees with the reference band: the label is the one at the band's index. */
  lemma ClassifyIsBand(lki: real)
    ensures Classify(lki) == Labels[Band(lki)]
  {
    // Unfold the count one bound at a time, from the last bound back to the first.
    var c := if 11.0 < lki then 1 else 0;
    assert BoundsBelow([11.0], lki) == c by { assert [11.0][1..] == []; }
    c := c + if 10.0 < lki then 1 else 0;
    assert BoundsBelow([10.0, 11.0], lki) == c by { assert [10.0, 11.0][1..] == [11.0]; }
    c := c + if 8.0 < lki then 1 else 0;
    assert BoundsBelow([8.0, 10.0, 11.0], lki) == c by { assert [8.0, 10.0, 11.0][1..] == [10.0, 11.0]; }
    c := c + if 6.0 < lki then 1 else 0;
    assert BoundsBelow([6.0, 8.0, 10.0, 11.0], lki) == c by {
      assert [6.0, 8.0, 10.0, 11.0][1..] == [8.0, 10.0, 11.0];
    }
    c := c + if 3.0 < lki then 1 else 0;
    assert Band(lki) == c by { assert UpperBounds[1..] == [6.0, 8.0, 10.0, 11.0]; }
  }

  /** Each inner band is half-open with an inclusive upper bound. */
  lemma ClassifyBands(lki: real)
    ensures Classify(lki) == "matig" <==> 3.0 < lki <= 6.0
    ensures Classify(lki) == "onvoldoende" <==> 6.0 < lki <= 8.0
    ensures Classify(lki) == "slecht" <==> 8.0 < lki <= 10.0
    ensures Classify(lki) == "zeer slecht" <==> 10.0 < lki <= 11.0
  {
  }

  /** A bound itself falls in the lower band; just above it, the next band begins. */
  lemma ClassifyAtBoundaries()
    ensures Classify(3.0) == "goed" && Classify(3.0001) == "matig"
    ensures Classify(6.0) == "matig" && Classify(6.0001) == "onvoldoende"
    ensures Classify(8.0) == "onvoldoende" && Classify(8.0001) == "slecht"
    ensures Classify(10.0) == "slecht" && Classify(10.0001) == "zeer slecht"
    ensures Classify(11.0) == "zeer slecht" && Classify(11.0001) == "Geen data beschikbaar"
    ensures Classify(50.0) == "Geen data beschikbaar"
  {
  }

  /** The classifier is monotone: a larger index never gets a label earlier in the list. */
  lemma ClassifyMonotone(a: real, b: real)
    requires a <= b
    ensures forall i, j ::
              0 <= i < |Labels| && 0 <= j < |Labels| && Labels[i] == Classify(a) && Labels[j] == Classify(b)
              ==> i <= j
  {
    ClassifyIsBand(a);
    ClassifyIsBand(b);
    BoundsBelowMonotone(UpperBounds, a, b);
    LabelsDistinct();
  }
}
