/**
 * The gesture classifier `get_hand_run`: a detected hand pose is turned into
 * a run value by comparing the vertical coordinates of finger tips and joints.
 * Image coordinates grow downwards, so "above" means "smaller y".
 */
module HandGesture {

  /** One point of the detected hand skeleton, in normalised image coordinates. */
  datatype Landmark = Landmark(x: real, y: real, z: real)

  /** The detector reports 21 landmarks per hand; the classifier reads indices up to 20. */
  const LandmarkCount: nat := 21

  /** Tip landmarks of thumb, index, middle, ring and pinky. */
  const TipIds: seq<nat> := [4, 8, 12, 16, 20]

  /** The joint each tip is compared with (the thumb's IP joint, the other fingers' PIP joints). */
  const PipIds: seq<nat> := [3, 6, 10, 14, 18]

  /** The values a move can take: the classifier's range, and the computer's choices. */
  const RunValues: set<int> := {1, 2, 3, 4, 6}

  predicate IsPose(lm: seq<Landmark>) {
    |lm| >= LandmarkCount
  }

  /** Landmark `a` lies strictly above landmark `b`. */
  predicate Above(lm: seq<Landmark>, a: nat, b: nat)
    requires a < |lm| && b < |lm|
  {
    lm[a].y < lm[b].y
  }

  /** The thumb counts only when its tip is above its own joint and above the index, middle and ring tips. */
  predicate ThumbRaised(lm: seq<Landmark>)
    requires IsPose(lm)
  {
    Above(lm, TipIds[0], PipIds[0]) &&
    Above(lm, TipIds[0], TipIds[1]) &&
    Above(lm, TipIds[0], TipIds[2]) &&
    Above(lm, TipIds[0], TipIds[3])
  }

  /** Finger `i` (1 = index .. 4 = pinky) counts when its tip is above its joint. */
  predicate FingerRaised(lm: seq<Landmark>, i: nat)
    requires IsPose(lm) && 1 <= i <= 4
  {
    Above(lm, TipIds[i], PipIds[i])
  }

  function ThumbWeight(lm: seq<Landmark>): int
    requires IsPose(lm)
  {
    if ThumbRaised(lm) then 6 else 0
  }

  function FingerWeight(lm: seq<Landmark>, i: nat): int
    requires IsPose(lm) && 1 <= i <= 4
  {
    if FingerRaised(lm, i) then 1 else 0
  }

  /** The weights the loop over fingers i..4 appends, in that order. */
  function FingerWeightsFrom(lm: seq<Landmark>, i: nat): seq<int>
    requires IsPose(lm) && 1 <= i <= 5
    decreases 5 - i
  {
    if i == 5 then [] else [FingerWeight(lm, i)] + FingerWeightsFrom(lm, i + 1)
  }

  /** The local `fingers` list: the thumb's weight, then one weight per other finger. */
  function Fingers(lm: seq<Landmark>): seq<int>
    requires IsPose(lm)
  {
    [ThumbWeight(lm)] + FingerWeightsFrom(lm, 1)
  }

  /** Python's `sum` over a list of integers. */
  function Sum(xs: seq<int>): int {
    if xs == [] then 0 else xs[0] + Sum(xs[1..])
  }

  function Max(a: int, b: int): int {
    if a >= b then a else b
  }

  function Min(a: int, b: int): int {
    if a <= b then a else b
  }

  /** Reference definition: the set of raised fingers among i..4 (thumb excluded). */
  function RaisedFrom(lm: seq<Landmark>, i: nat): set<nat>
    requires IsPose(lm) && 1 <= i
  {
    set j: nat | i <= j <= 4 && FingerRaised(lm, j)
  }

  /** The raised non-thumb fingers. */
  function RaisedFingers(lm: seq<Landmark>): set<nat>
    requires IsPose(lm)
  {
    RaisedFrom(lm, 1)
  }

  /** Summing the weights the loop appends counts exactly the raised fingers. */
  lemma {:induction false} WeightsCountRaised(lm: seq<Landmark>, i: nat)
    requires IsPose(lm) && 1 <= i <= 5
    ensures Sum(FingerWeightsFrom(lm, i)) == |RaisedFrom(lm, i)| <= 5 - i
    decreases 5 - i
  {
    if i == 5 {
      assert RaisedFrom(lm, i) == {};
    } else {
      WeightsCountRaised(lm, i + 1);
      var rest := RaisedFrom(lm, i + 1);
      assert i !in rest;
      if FingerRaised(lm, i) {
        assert RaisedFrom(lm, i) == rest + {i};
      } else {
        assert RaisedFrom(lm, i) == rest;
      }
      assert ([FingerWeight(lm, i)] + FingerWeightsFrom(lm, i + 1))[1..] == FingerWeightsFrom(lm, i + 1);
    }
  }

  /**
   * `get_hand_run`: a raised thumb forces 6; otherwise the result is the number of
   * raised fingers, with 0 lifted to 1. The handedness label is accepted and ignored.
   */
  function GetHandRun(lm: seq<Landmark>, handedness: string): (r: int)
    requires IsPose(lm)
    ensures r in RunValues
    ensures ThumbRaised(lm) ==> r == 6
    ensures !ThumbRaised(lm) ==> r == Max(1, |RaisedFingers(lm)|)
  {
    WeightsCountRaised(lm, 1);
    assert Fingers(lm)[1..] == FingerWeightsFrom(lm, 1);
    var fingerCount := Sum(Fingers(lm));
    Max(1, Min(6, fingerCount))
  }

  /** The handedness label never changes the classification. */
  lemma HandednessIgnored(lm: seq<Landmark>, h1: string, h2: string)
    requires IsPose(lm)
    ensures GetHandRun(lm, h1) == GetHandRun(lm, h2)
  {
  }

  /** Every tip at or below its joint (a closed fist) is classified as 1, not 0. */
  lemma AllDownGivesOne(lm: seq<Landmark>, handedness: string)
    requires IsPose(lm)
    requires forall k :: 0 <= k < 5 ==> lm[TipIds[k]].y >= lm[PipIds[k]].y
    ensures GetHandRun(lm, handedness) == 1
  {
    assert !ThumbRaised(lm) by {
      assert lm[TipIds[0]].y >= lm[PipIds[0]].y;
    }
    forall j: nat | 1 <= j <= 4
      ensures !FingerRaised(lm, j)
    {
      assert lm[TipIds[j]].y >= lm[PipIds[j]].y;
    }
    assert RaisedFingers(lm) == {};
  }

  /** Four raised fingers without the thumb give 4, the largest value below 6. */
  lemma FourFingersGiveFour(lm: seq<Landmark>, handedness: string)
    requires IsPose(lm) && !ThumbRaised(lm)
    requires forall j :: 1 <= j <= 4 ==> FingerRaised(lm, j)
    ensures GetHandRun(lm, handedness) == 4
  {
    assert RaisedFingers(lm) == {1, 2, 3, 4};
  }
}
