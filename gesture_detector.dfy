/**
 * Finger counting and gesture classification over the integer landmark list
 * produced for one hand (gesture_detector.py). A landmark list is either empty
 * (no hand) or the 21 MediaPipe hand points in their fixed order, each already
 * scaled to pixel coordinates.
 */
module GestureDetector {

  /** One `[id, x, y]` entry of the landmark list. */
  datatype Landmark = Landmark(id: int, x: int, y: int)

  // Landmark indices used by the classifier.
  const ThumbTip: nat := 4
  const IndexTip: nat := 8
  const MiddleTip: nat := 12
  const RingTip: nat := 16
  const PinkyTip: nat := 20

  /** The four non-thumb finger tips, in the order they are examined. */
  const FingerTips: seq<nat> := [IndexTip, MiddleTip, RingTip, PinkyTip]

  /** A list the classifier can be applied to: no hand, or a full hand. */
  predicate WellFormed(landmarks: seq<Landmark>) {
    |landmarks| == 0 || |landmarks| > PinkyTip
  }

  /** The thumb is extended when its tip lies strictly left of the joint before it. */
  predicate ThumbExtended(landmarks: seq<Landmark>)
    requires |landmarks| > PinkyTip
  {
    landmarks[ThumbTip].x < landmarks[ThumbTip - 1].x
  }

  /** A finger is extended when its tip lies strictly above the joint two points before it. */
  predicate FingerExtended(landmarks: seq<Landmark>, tip: nat)
    requires 2 <= tip < |landmarks|
  {
    landmarks[tip].y < landmarks[tip - 2].y
  }

  /** The five extended/flexed flags, thumb first, then index, middle, ring and pinky. */
  function FingerVector(landmarks: seq<Landmark>): (v: seq<bool>)
    requires |landmarks| > PinkyTip
    ensures |v| == 5
  {
    [ThumbExtended(landmarks)] + seq(4, k requires 0 <= k < 4 => FingerExtended(landmarks, FingerTips[k]))
  }

  /** How many entries of `flags` are set (Python's `fingers.count(1)`). */
  function CountSet(flags: seq<bool>): (n: nat)
    ensures n <= |flags|
  {
    if flags == [] then 0
    else CountSet(flags[..|flags| - 1]) + (if flags[|flags| - 1] then 1 else 0)
  }

  /** The number of extended fingers; an empty list counts as zero. */
  function FingerCount(landmarks: seq<Landmark>): (n: nat)
    requires WellFormed(landmarks)
    ensures n <= 5
  {
    if |landmarks| == 0 then 0 else CountSet(FingerVector(landmarks))
  }

  /** 1 for a set flag, 0 otherwise. */
  function Bit(b: bool): nat { if b then 1 else 0 }

  /**
   * The finger count stated directly on the coordinates: the sum of the five
   * strict comparisons 4.x < 3.x, 8.y < 6.y, 12.y < 10.y, 16.y < 14.y and 20.y < 18.y.
   */
  function CoordinateCount(l: seq<Landmark>): nat
    requires |l| > PinkyTip
  {
    Bit(l[4].x < l[3].x) + Bit(l[8].y < l[6].y) + Bit(l[12].y < l[10].y)
      + Bit(l[16].y < l[14].y) + Bit(l[20].y < l[18].y)
  }

  /**
   * Counts extended fingers the way the detector does: build the flag list
   * (thumb first, then one flag per finger tip in a loop), then count the set flags.
   */
  method CountFingers(landmarks: seq<Landmark>) returns (fingerCount: nat)
    requires WellFormed(landmarks)
    ensures fingerCount == FingerCount(landmarks)
    ensures |landmarks| == 0 ==> fingerCount == 0
    ensures |landmarks| > 0 ==> fingerCount == CoordinateCount(landmarks)
    ensures fingerCount <= 5
  {
    if |landmarks| == 0 {
      return 0;
    }
    var fingers: seq<bool> := [];
    if landmarks[ThumbTip].x < landmarks[ThumbTip - 1].x {
      fingers := fingers + [true];
    } else {
      fingers := fingers + [false];
    }
    var i := 0;
    while i < |FingerTips|
      invariant 0 <= i <= |FingerTips|
      invariant fingers == FingerVector(landmarks)[..i + 1]
    {
      var tip := FingerTips[i];
      ghost var v := FingerVector(landmarks);
      assert v[i + 1] == FingerExtended(landmarks, tip);
      assert v[..i + 2] == v[..i + 1] + [v[i + 1]];
      if landmarks[tip].y < landmarks[tip - 2].y {
        fingers := fingers + [true];
      } else {
        fingers := fingers + [false];
      }
      i := i + 1;
    }
    assert fingers == FingerVector(landmarks);
    fingerCount := 0;
    var j := 0;
    while j < |fingers|
      invariant 0 <= j <= |fingers|
      invariant fingerCount == CountSet(fingers[..j])
    {
      assert fingers[..j + 1][..j] == fingers[..j];
      if fingers[j] {
        fingerCount := fingerCount + 1;
      }
      j := j + 1;
    }
    assert fingers[..j] == fingers;
    FingerCountMatchesCoordinates(landmarks);
  }

  /** Counting the flag vector agrees with summing the five coordinate comparisons. */
  lemma FingerCountMatchesCoordinates(landmarks: seq<Landmark>)
    requires |landmarks| > PinkyTip
    ensures FingerCount(landmarks) == CoordinateCount(landmarks)
  {
    var l := landmarks;
    var v := FingerVector(l);
    assert v[0] == (l[4].x < l[3].x);
    assert v[1] == (l[8].y < l[6].y);
    assert v[2] == (l[12].y < l[10].y);
    assert v[3] == (l[16].y < l[14].y);
    assert v[4] == (l[20].y < l[18].y);
    assert v[..1][..0] == [];
    assert CountSet(v[..1]) == Bit(v[0]);
    assert v[..2][..1] == v[..1];
    assert CountSet(v[..2]) == Bit(v[0]) + Bit(v[1]);
    assert v[..3][..2] == v[..2];
    assert CountSet(v[..3]) == Bit(v[0]) + Bit(v[1]) + Bit(v[2]);
    assert v[..4][..3] == v[..3];
    assert CountSet(v[..4]) == Bit(v[0]) + Bit(v[1]) + Bit(v[2]) + Bit(v[3]);
    assert v[..5][..4] == v[..4];
    assert v[..5] == v;
  }

  /** The count is 5 exactly when all five flags are set, and 0 exactly when none is. */
  lemma FingerCountExtremes(landmarks: seq<Landmark>)
    requires |landmarks| > PinkyTip
    ensures FingerCount(landmarks) == 5 <==> forall k :: 0 <= k < 5 ==> FingerVector(landmarks)[k]
    ensures FingerCount(landmarks) == 0 <==> forall k :: 0 <= k < 5 ==> !FingerVector(landmarks)[k]
  {
    FingerCountMatchesCoordinates(landmarks);
    var l := landmarks;
    var v := FingerVector(l);
    assert v == [l[4].x < l[3].x, l[8].y < l[6].y, l[12].y < l[10].y, l[16].y < l[14].y, l[20].y < l[18].y];
    if v[0] && v[1] && v[2] && v[3] && v[4] {
      forall k | 0 <= k < 5 ensures v[k] {
        assert k == 0 || k == 1 || k == 2 || k == 3 || k == 4;
      }
    }
    if !v[0] && !v[1] && !v[2] && !v[3] && !v[4] {
      forall k | 0 <= k < 5 ensures !v[k] {
        assert k == 0 || k == 1 || k == 2 || k == 3 || k == 4;
      }
    }
  }

  /** Two lists agree on every coordinate the classifier reads. */
  predicate SameReadCoordinates(a: seq<Landmark>, b: seq<Landmark>)
    requires |a| > PinkyTip && |b| > PinkyTip
  {
    && a[3].x == b[3].x && a[4].x == b[4].x
    && a[6].y == b[6].y && a[8].y == b[8].y
    && a[10].y == b[10].y && a[12].y == b[12].y
    && a[14].y == b[14].y && a[16].y == b[16].y
    && a[18].y == b[18].y && a[20].y == b[20].y
  }

  /**
   * The count depends only on x of points 3 and 4 and y of points 6, 8, ..., 20:
   * ids, every other coordinate and any points past the 21st can change freely.
   */
  lemma FingerCountLocal(a: seq<Landmark>, b: seq<Landmark>)
    requires |a| > PinkyTip && |b| > PinkyTip
    requires SameReadCoordinates(a, b)
    ensures FingerVector(a) == FingerVector(b)
    ensures FingerCount(a) == FingerCount(b)
  {
  }

  /** The gesture names the detector can return. */
  datatype Gesture = NoHand | Fist | OpenPalm | OneFinger | TwoFingers | ThreeFingers | FourFingers | Unknown {

    /** The exact string the detector returns for this gesture. */
    function Name(): string {
      match this
      case NoHand => "No Hand"
      case Fist => "FIST (OFF)"
      case OpenPalm => "OPEN PALM (ON)"
      case OneFinger => "ONE FINGER"
      case TwoFingers => "TWO FINGERS"
      case ThreeFingers => "THREE FINGERS"
      case FourFingers => "FOUR FINGERS"
      case Unknown => "Unknown"
    }

    /** The finger count a counted gesture stands for; none for NoHand and Unknown. */
    function Fingers(): int {
      match this
      case Fist => 0
      case OneFinger => 1
      case TwoFingers => 2
      case ThreeFingers => 3
      case FourFingers => 4
      case OpenPalm => 5
      case NoHand => -1
      case Unknown => -1
    }
  }

  /** Distinct gestures have distinct names, so comparing names is comparing gestures. */
  lemma NameInjective(g: Gesture, h: Gesture)
    ensures g.Name() == h.Name() <==> g == h
  {
  }

  /** Classifies a landmark list by its finger count. */
  function DetectGesture(landmarks: seq<Landmark>): (g: Gesture)
    requires WellFormed(landmarks)
    ensures g == NoHand <==> |landmarks| == 0
    ensures g != Unknown
    ensures g != NoHand ==> g.Fingers() == FingerCount(landmarks)
  {
    if |landmarks| == 0 then NoHand
    else
      var fingerCount := FingerCount(landmarks);
      if fingerCount == 0 then Fist
      else if fingerCount == 5 then OpenPalm
      else if fingerCount == 1 then OneFinger
      else if fingerCount == 2 then TwoFingers
      else if fingerCount == 3 then ThreeFingers
      else if fingerCount == 4 then FourFingers
      else Unknown
  }

  /** Every finger count names exactly one counted gesture: `Fingers` inverts the classification. */
  lemma DetectGestureInvertible(a: seq<Landmark>, b: seq<Landmark>)
    requires WellFormed(a) && WellFormed(b) && |a| > 0 && |b| > 0
    ensures DetectGesture(a) == DetectGesture(b) <==> FingerCount(a) == FingerCount(b)
  {
  }
}
