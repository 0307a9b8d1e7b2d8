/** The per-frame hand classifier and the shared cell it writes the pointer
    sample into. One landmark frame gives one gesture and one sample; the
    finger counting is a loop over four fingers plus a thumb test. */
module HandTracker {
  import opened Types
  import opened MathUtils

  const LandmarkCount: nat := 21
  const Wrist: nat := 0
  const ThumbBase: nat := 2
  const ThumbTip: nat := 4
  const IndexBase: nat := 5
  const IndexTip: nat := 8
  /** Tips and bases of the index, middle, ring and little fingers. */
  const Tips: seq<nat> := [8, 12, 16, 20]
  const Bases: seq<nat> := [5, 9, 13, 17]

  /** A hand as the landmark model reports it: 21 keypoints. */
  predicate IsHand(hand: seq<Landmark>)
  {
    |hand| == LandmarkCount
  }

  /** The squared planar (x, y) distance between two landmarks; z is never used. */
  function PlanarDistSq(a: Landmark, b: Landmark): (d: real)
    ensures d >= 0.0
    ensures a.x == b.x && a.y == b.y ==> d == 0.0
  {
    (a.x - b.x) * (a.x - b.x) + (a.y - b.y) * (a.y - b.y)
  }

  /** Finger k (0 = index .. 3 = little) is extended when its tip is farther
      from the wrist than 1.2 times its base, compared on squares. */
  predicate FingerExtended(hand: seq<Landmark>, k: nat)
    requires IsHand(hand) && k < 4
  {
    PlanarDistSq(hand[Tips[k]], hand[Wrist]) > PlanarDistSq(hand[Bases[k]], hand[Wrist]) * 1.44
  }

  /** The thumb is extended when its tip is farther from the wrist than 1.1
      times its base. */
  predicate ThumbExtended(hand: seq<Landmark>)
    requires IsHand(hand)
  {
    PlanarDistSq(hand[ThumbTip], hand[Wrist]) > PlanarDistSq(hand[ThumbBase], hand[Wrist]) * 1.21
  }

  /** Thumb tip and index tip closer than 0.08. */
  predicate IsPinching(hand: seq<Landmark>)
    requires IsHand(hand)
  {
    PlanarDistSq(hand[ThumbTip], hand[IndexTip]) < 0.0064
  }

  /** The number of extended fingers among the first k. */
  function FingersExtendedAmong(hand: seq<Landmark>, k: nat): (n: nat)
    requires IsHand(hand) && k <= 4
    ensures n <= k
  {
    if k == 0 then 0
    else FingersExtendedAmong(hand, k - 1) + (if FingerExtended(hand, k - 1) then 1 else 0)
  }

  /** The number of extended fingers, thumb included. */
  function ExtendedCount(hand: seq<Landmark>): (n: nat)
    requires IsHand(hand)
    ensures n <= 5
  {
    FingersExtendedAmong(hand, 4) + (if ThumbExtended(hand) then 1 else 0)
  }

  /** The gesture of a detected hand, by the fixed priority PINCH > OPEN > CLOSED. */
  function Classify(hand: seq<Landmark>): (g: Gesture)
    requires IsHand(hand)
    ensures g == Pinch <==> IsPinching(hand) && ExtendedCount(hand) >= 2
    ensures g == Open <==> !(IsPinching(hand) && ExtendedCount(hand) >= 2) && ExtendedCount(hand) >= 4
    ensures g == Closed <==> !(IsPinching(hand) && ExtendedCount(hand) >= 2) && ExtendedCount(hand) < 4
  {
    var extended := ExtendedCount(hand);
    if IsPinching(hand) && extended >= 2 then Pinch
    else if extended >= 4 then Open
    else Closed
  }

  /** Math.hypot as the model knows it: non-negative, squaring to the sum of squares. */
  ghost predicate IsHypot(hypot: (real, real) -> real)
  {
    forall a, b :: hypot(a, b) >= 0.0 && hypot(a, b) * hypot(a, b) == a * a + b * b
  }

  /** The source's test `hypot(a - w) > hypot(b - w) * c`. */
  predicate FartherByHypot(hypot: (real, real) -> real, a: Landmark, b: Landmark, w: Landmark, c: real)
  {
    hypot(a.x - w.x, a.y - w.y) > hypot(b.x - w.x, b.y - w.y) * c
  }

  /** The classifier as the source writes it, with hypot distances and
      scaled comparisons instead of squares. */
  function ClassifyByHypot(hand: seq<Landmark>, hypot: (real, real) -> real): Gesture
    requires IsHand(hand)
  {
    var pinching := hypot(hand[4].x - hand[8].x, hand[4].y - hand[8].y) < 0.08;
    var count := HypotCount(hand, hypot);
    if pinching && count >= 2 then Pinch
    else if count >= 4 then Open
    else Closed
  }

  /** The source's count of extended fingers plus the thumb, by hypot tests. */
  function HypotCount(hand: seq<Landmark>, hypot: (real, real) -> real): int
    requires IsHand(hand)
  {
    var w := hand[Wrist];
    (if FartherByHypot(hypot, hand[8], hand[5], w, 1.2) then 1 else 0)
    + (if FartherByHypot(hypot, hand[12], hand[9], w, 1.2) then 1 else 0)
    + (if FartherByHypot(hypot, hand[16], hand[13], w, 1.2) then 1 else 0)
    + (if FartherByHypot(hypot, hand[20], hand[17], w, 1.2) then 1 else 0)
    + (if FartherByHypot(hypot, hand[4], hand[2], w, 1.1) then 1 else 0)
  }

  /** For non-negative p and s, p > s exactly when p^2 > s^2. */
  lemma SquareMonotone(p: real, s: real)
    requires p >= 0.0 && s >= 0.0
    ensures p > s <==> p * p > s * s
  {
    assert p * p - s * s == (p + s) * (p - s);
    if p > s {
      MulPositive(p + s, p - s);
    } else {
      MulNonNegative(p + s, s - p);
    }
  }

  /** A hypot comparison against a scaled hypot agrees with the squared one. */
  lemma HypotTest(hypot: (real, real) -> real, a: Landmark, b: Landmark, w: Landmark, c: real)
    requires IsHypot(hypot) && c >= 0.0
    ensures FartherByHypot(hypot, a, b, w, c) <==> PlanarDistSq(a, w) > PlanarDistSq(b, w) * (c * c)
  {
    var p, q := hypot(a.x - w.x, a.y - w.y), hypot(b.x - w.x, b.y - w.y);
    assert p >= 0.0 && p * p == PlanarDistSq(a, w);
    assert q >= 0.0 && q * q == PlanarDistSq(b, w);
    var s := q * c;
    assert s >= 0.0;
    assert s * s == (q * q) * (c * c);
    SquareMonotone(p, s);
  }

  /** Comparing squared distances counts the same extended digits as the
      source's hypot tests, for any true hypot. */
  lemma CountMatchesHypot(hand: seq<Landmark>, hypot: (real, real) -> real)
    requires IsHand(hand) && IsHypot(hypot)
    ensures ExtendedCount(hand) == HypotCount(hand, hypot)
  {
    var w := hand[Wrist];
    HypotTest(hypot, hand[8], hand[5], w, 1.2);
    HypotTest(hypot, hand[12], hand[9], w, 1.2);
    HypotTest(hypot, hand[16], hand[13], w, 1.2);
    HypotTest(hypot, hand[20], hand[17], w, 1.2);
    HypotTest(hypot, hand[4], hand[2], w, 1.1);
    assert FingersExtendedAmong(hand, 1) == (if FingerExtended(hand, 0) then 1 else 0);
    assert FingersExtendedAmong(hand, 2) == FingersExtendedAmong(hand, 1) + (if FingerExtended(hand, 1) then 1 else 0);
    assert FingersExtendedAmong(hand, 3) == FingersExtendedAmong(hand, 2) + (if FingerExtended(hand, 2) then 1 else 0);
    assert FingersExtendedAmong(hand, 4) == FingersExtendedAmong(hand, 3) + (if FingerExtended(hand, 3) then 1 else 0);
  }

  /** The squared pinch test agrees with the source's hypot(...) < 0.08. */
  lemma PinchMatchesHypot(hand: seq<Landmark>, hypot: (real, real) -> real)
    requires IsHand(hand) && IsHypot(hypot)
    ensures IsPinching(hand) <==> hypot(hand[4].x - hand[8].x, hand[4].y - hand[8].y) < 0.08
  {
    var d := hypot(hand[4].x - hand[8].x, hand[4].y - hand[8].y);
    assert d >= 0.0 && d * d == PlanarDistSq(hand[4], hand[8]);
    SquareMonotone(0.08, d);
  }

  /** Comparing squared distances classifies every hand exactly as the
      source's hypot tests do, for any true hypot. */
  lemma ClassifyMatchesHypot(hand: seq<Landmark>, hypot: (real, real) -> real)
    requires IsHand(hand) && IsHypot(hypot)
    ensures Classify(hand) == ClassifyByHypot(hand, hypot)
  {
    CountMatchesHypot(hand, hypot);
    PinchMatchesHypot(hand, hypot);
  }

  /** Pinching with at least two extended fingers gives PINCH, even when four
      or five are extended and the hand would otherwise be OPEN. */
  lemma PinchOverridesOpen(hand: seq<Landmark>)
    requires IsHand(hand) && IsPinching(hand) && ExtendedCount(hand) >= 4
    ensures Classify(hand) == Pinch
  {
  }

  /** A hand whose landmarks all share one (x, y) point: nothing is extended,
      because the tests are strict, and the result is CLOSED although the
      pinch test holds. */
  lemma CoincidentHand(hand: seq<Landmark>)
    requires IsHand(hand)
    requires forall i :: 0 <= i < |hand| ==> hand[i].x == hand[Wrist].x && hand[i].y == hand[Wrist].y
    ensures ExtendedCount(hand) == 0
    ensures IsPinching(hand)
    ensures Classify(hand) == Closed
  {
    assert PlanarDistSq(hand[ThumbTip], hand[Wrist]) == 0.0 && PlanarDistSq(hand[ThumbBase], hand[Wrist]) == 0.0;
    assert PlanarDistSq(hand[ThumbTip], hand[IndexTip]) == 0.0;
    forall k | 0 <= k < 4
      ensures !FingerExtended(hand, k)
    {
      assert PlanarDistSq(hand[Tips[k]], hand[Wrist]) == 0.0 && PlanarDistSq(hand[Bases[k]], hand[Wrist]) == 0.0;
    }
    assert FingersExtendedAmong(hand, 1) == 0;
    assert FingersExtendedAmong(hand, 2) == 0;
    assert FingersExtendedAmong(hand, 3) == 0;
    assert FingersExtendedAmong(hand, 4) == 0;
  }

  /** The pointer sample of a detected hand: x mirrored for the flipped
      camera image, y as is, z a hand-size proxy (5 times the wrist to
      index-base distance). */
  function PointerSample(hand: seq<Landmark>, hypot: (real, real) -> real): (s: HandSample)
    requires IsHand(hand)
    ensures s.present
    ensures 0.0 <= hand[Wrist].x <= 1.0 ==> 0.0 <= s.x <= 1.0
    ensures s.x + hand[Wrist].x == 1.0 && s.y == hand[Wrist].y
    ensures IsHypot(hypot) ==> s.z >= 0.0 && s.z * s.z == 25.0 * PlanarDistSq(hand[IndexBase], hand[Wrist])
  {
    var w := hand[Wrist];
    var i := hand[IndexBase];
    HandSample(1.0 - w.x, w.y, hypot(i.x - w.x, i.y - w.y) * 5.0, true)
  }

  lemma SamePlanarDistance(a: seq<Landmark>, b: seq<Landmark>, i: nat, j: nat)
    requires IsHand(a) && IsHand(b) && i < LandmarkCount && j < LandmarkCount
    requires a[i].x == b[i].x && a[i].y == b[i].y && a[j].x == b[j].x && a[j].y == b[j].y
    ensures PlanarDistSq(a[i], a[j]) == PlanarDistSq(b[i], b[j])
  {
  }

  /** The outcome depends on landmark x and y only: landmark z is never read. */
  lemma DepthIgnored(a: seq<Landmark>, b: seq<Landmark>, hypot: (real, real) -> real)
    requires IsHand(a) && IsHand(b)
    requires forall i :: 0 <= i < LandmarkCount ==> a[i].x == b[i].x && a[i].y == b[i].y
    ensures Classify(a) == Classify(b)
    ensures PointerSample(a, hypot) == PointerSample(b, hypot)
  {
    forall k | 0 <= k < 4
      ensures FingerExtended(a, k) == FingerExtended(b, k)
    {
      SamePlanarDistance(a, b, Tips[k], Wrist);
      SamePlanarDistance(a, b, Bases[k], Wrist);
    }
    SamePlanarDistance(a, b, ThumbTip, Wrist);
    SamePlanarDistance(a, b, ThumbBase, Wrist);
    SamePlanarDistance(a, b, ThumbTip, IndexTip);
    assert FingersExtendedAmong(a, 1) == FingersExtendedAmong(b, 1);
    assert FingersExtendedAmong(a, 2) == FingersExtendedAmong(b, 2);
    assert FingersExtendedAmong(a, 3) == FingersExtendedAmong(b, 3);
    assert FingersExtendedAmong(a, 4) == FingersExtendedAmong(b, 4);
  }

  /** The extension count as the source computes it: a counter bumped once
      per extended finger, then once more for the thumb. */
  method CountExtended(hand: seq<Landmark>) returns (extendedFingers: nat)
    requires IsHand(hand)
    ensures extendedFingers == ExtendedCount(hand)
  {
    var wrist := hand[Wrist];
    extendedFingers := 0;
    for i := 0 to 4
      invariant extendedFingers == FingersExtendedAmong(hand, i)
    {
      var t := hand[Tips[i]];
      var b := hand[Bases[i]];
      if PlanarDistSq(t, wrist) > PlanarDistSq(b, wrist) * 1.44 {
        extendedFingers := extendedFingers + 1;
      }
    }
    var isThumbExtended := PlanarDistSq(hand[ThumbTip], wrist) > PlanarDistSq(hand[ThumbBase], wrist) * 1.21;
    if isThumbExtended {
      extendedFingers := extendedFingers + 1;
    }
  }

  /** The last-value shared cell holding the latest pointer sample: written
      by the tracker, read once per rendered frame by the camera. */
  class TrackingSignal {
    var current: HandSample

    /** The sample before any hand has been seen. */
    constructor ()
      ensures current == HandSample(0.5, 0.5, 0.5, false)
    {
      current := HandSample(0.5, 0.5, 0.5, false);
    }
  }

  /** The results callback: reports exactly one gesture and overwrites the
      shared sample. `hands` lists the detected hands; only the first is used,
      and an empty list stands for a frame without a hand. */
  method OnResults(signal: TrackingSignal, hands: seq<seq<Landmark>>, hypot: (real, real) -> real)
    returns (reported: Gesture)
    requires hands != [] ==> IsHand(hands[0])
    modifies signal
    ensures hands == [] ==> reported == Closed
    ensures hands == [] ==> signal.current == old(signal.current).(present := false)
    ensures hands != [] ==> reported == Classify(hands[0])
    ensures hands != [] ==> signal.current == PointerSample(hands[0], hypot)
  {
    if |hands| > 0 {
      var landmarks := hands[0];
      var wrist := landmarks[Wrist];
      var extendedFingers := CountExtended(landmarks);
      var pinchDist := PlanarDistSq(landmarks[ThumbTip], landmarks[IndexTip]);
      var isPinching := pinchDist < 0.0064;
      var newState := Closed;
      if isPinching && extendedFingers >= 2 {
        newState := Pinch;
      } else if extendedFingers >= 4 {
        newState := Open;
      } else {
        newState := Closed;
      }
      reported := newState;
      var indexMcp := landmarks[IndexBase];
      var handSize := hypot(indexMcp.x - wrist.x, indexMcp.y - wrist.y) * 5.0;
      signal.current := HandSample(1.0 - wrist.x, wrist.y, handSize, true);
    } else {
      reported := Closed;
      signal.current := signal.current.(present := false);
    }
  }
}
