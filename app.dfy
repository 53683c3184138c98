/**
 * The application's per-frame gesture interpretation and its configuration
 * merge: a detection result becomes a `GestureState` (hands, centre, wrist
 * distance, expansion, rotation), and a partial configuration is spread over
 * the current one.
 */
module App {
  import opened Wrappers
  import opened Numeric
  import opened Types
  import opened HandDetection

  /** Expansion with no hands in view. */
  const RestExpansion: real := 1.0
  /** Upper bound of the two-hand expansion. */
  const MaxExpansion: real := 25.0
  /** Lower bound of the two-hand base expansion. */
  const MinBaseExpansion: real := 0.1
  const OpenHandExpansion: real := 2.5
  const ClosedHandExpansion: real := 0.5

  /** Every detected hand carries every landmark the interpreter reads (wrist and fingertips). */
  predicate WellFormed(r: DetectionResult)
  {
    forall i :: 0 <= i < |r.landmarks| ==> |r.landmarks[i]| >= LandmarksPerHand
  }

  /** The label of hand `i`: its handedness category when reported, else `Right`. */
  function LabelOf(handedness: seq<Handedness>, i: nat): Handedness
  {
    if i < |handedness| then handedness[i] else Right
  }

  /** One `HandData` per landmark list, in detection order. */
  function BuildHands(r: DetectionResult, m: MathLib): (hands: seq<HandData>)
    requires WellFormed(r)
    ensures |hands| == |r.landmarks|
    ensures forall i :: 0 <= i < |hands| ==>
      && hands[i].landmarks == r.landmarks[i]
      && |hands[i].landmarks| >= LandmarksPerHand
      && hands[i].score == 1.0
      && hands[i].handLabel == (if i < |r.handedness| then r.handedness[i] else Right)
      && (hands[i].isOpen <==> MeanTipDistance(r.landmarks[i], m) > OpennessThreshold)
  {
    seq(|r.landmarks|, i requires 0 <= i < |r.landmarks| =>
      HandData(r.landmarks[i], CalculateHandOpenness(Some(r.landmarks[i]), m).value, 1.0, LabelOf(r.handedness, i)))
  }

  predicate HasWrists(hands: seq<HandData>)
  {
    forall i :: 0 <= i < |hands| ==> |hands[i].landmarks| > Wrist
  }

  /** Sum of the hands' wrist landmarks, accumulated in list order. */
  function WristSum(hands: seq<HandData>): Vec3
    requires HasWrists(hands)
  {
    if |hands| == 0 then Vec3(0.0, 0.0, 0.0)
    else
      var s := WristSum(hands[..|hands| - 1]);
      var w := hands[|hands| - 1].landmarks[Wrist];
      Vec3(s.x + w.x, s.y + w.y, s.z + w.z)
  }

  /** Arithmetic mean of the wrist landmarks. */
  function Centroid(hands: seq<HandData>): Vec3
    requires HasWrists(hands) && |hands| > 0
  {
    var s := WristSum(hands);
    var n := |hands| as real;
    Vec3(s.x / n, s.y / n, s.z / n)
  }

  /** Index of the first hand labelled `Right`, if any. */
  function FindRight(hands: seq<HandData>): (r: Option<nat>)
    ensures r.Some? ==> r.value < |hands| && hands[r.value].handLabel == Right
    ensures r.Some? ==> forall j :: 0 <= j < r.value ==> hands[j].handLabel != Right
    ensures r.None? ==> forall j :: 0 <= j < |hands| ==> hands[j].handLabel != Right
  {
    if |hands| == 0 then None
    else if hands[0].handLabel == Right then Some(0)
    else
      match FindRight(hands[1..])
      case None => None
      case Some(k) => Some(k + 1)
  }

  /** The hand that steers rotation: the first `Right` hand, else the first hand. */
  function RotationHandIndex(hands: seq<HandData>): (k: nat)
    requires |hands| > 0
    ensures k < |hands|
  {
    match FindRight(hands)
    case Some(k) => k
    case None => 0
  }

  /** Wrist position mapped to Euler angles: a full turn across the image in each direction. */
  function RotationFromWrist(w: Landmark): Rotation
  {
    Rotation((w.y - 0.5) * PI * 2.0, (w.x - 0.5) * PI * 2.0)
  }

  /** Planar distance between two wrists. */
  function WristDistance(a: Landmark, b: Landmark, m: MathLib): real
  {
    Sqrt(m, Sq(a.x - b.x) + Sq(a.y - b.y))
  }

  /** Number of hands whose `isOpen` flag is set. */
  function OpenCount(hands: seq<HandData>): (n: nat)
    ensures n <= |hands|
  {
    if |hands| == 0 then 0
    else (if hands[0].isOpen then 1 else 0) + OpenCount(hands[1..])
  }

  function BaseExpansion(distance: real): real
  {
    Max(MinBaseExpansion, (distance - 0.05) * 12.0)
  }

  function OpennessMultiplier(openCount: nat): real
  {
    1.0 + openCount as real * 1.5
  }

  /** The two-hand zoom: grows with wrist separation, amplified by open hands, capped. */
  function TwoHandExpansion(distance: real, openCount: nat): (e: real)
    requires openCount <= 2
    ensures MinBaseExpansion <= e <= MaxExpansion
  {
    var base := BaseExpansion(distance);
    var mult := OpennessMultiplier(openCount);
    assert base * mult >= base * 1.0 >= MinBaseExpansion;
    Min(MaxExpansion, base * mult)
  }

  function OneHandExpansion(isOpen: bool): real
  {
    if isOpen then OpenHandExpansion else ClosedHandExpansion
  }

  datatype Scale = Scale(distance: real, expansion: real)

  /** Wrist distance and expansion for a non-empty list of hands. */
  function ScaleOf(hands: seq<HandData>, m: MathLib): Scale
    requires HasWrists(hands)
  {
    if |hands| == 2 then
      var d := WristDistance(hands[0].landmarks[Wrist], hands[1].landmarks[Wrist], m);
      Scale(d, TwoHandExpansion(d, OpenCount(hands)))
    else if |hands| == 1 then Scale(0.0, OneHandExpansion(hands[0].isOpen))
    else Scale(0.0, RestExpansion)
  }

  /** A result that holds at least one hand. */
  predicate HasHands(result: Option<DetectionResult>)
  {
    result.Some? && |result.value.landmarks| > 0
  }

  /**
   * The gesture state one frame produces. Without hands the previous centre,
   * rotation and distance are kept and only the hands and expansion reset.
   */
  function Interpret(prev: GestureState, result: Option<DetectionResult>, m: MathLib): (s: GestureState)
    requires result.Some? ==> WellFormed(result.value)
    ensures |s.hands| > 0 <==> HasHands(result)
    ensures HasHands(result) ==> |s.hands| == |result.value.landmarks|
    ensures MinBaseExpansion <= s.expansion <= MaxExpansion
  {
    if !HasHands(result) then prev.(hands := [], expansion := RestExpansion)
    else
      var hands := BuildHands(result.value, m);
      var scale := ScaleOf(hands, m);
      GestureState(hands, scale.distance, Centroid(hands), scale.expansion,
                   RotationFromWrist(hands[RotationHandIndex(hands)].landmarks[Wrist]))
  }

  /**
   * One run of the frame callback: when tracking, the result of this frame's
   * detection is interpreted, the wrist centre being accumulated hand by hand.
   */
  method Update(tracking: bool, prev: GestureState, result: Option<DetectionResult>, m: MathLib)
    returns (next: GestureState)
    requires result.Some? ==> WellFormed(result.value)
    ensures next == if tracking then Interpret(prev, result, m) else prev
  {
    if !tracking {
      return prev;
    }
    if result.Some? && |result.value.landmarks| > 0 {
      var hands := BuildHands(result.value, m);
      var cx, cy, cz := 0.0, 0.0, 0.0;
      for k := 0 to |hands|
        invariant Vec3(cx, cy, cz) == WristSum(hands[..k])
      {
        var palm := hands[k].landmarks[Wrist];
        assert hands[..k + 1][..k] == hands[..k];
        cx, cy, cz := cx + palm.x, cy + palm.y, cz + palm.z;
      }
      assert hands[..|hands|] == hands;
      var n := |hands| as real;
      cx, cy, cz := cx / n, cy / n, cz / n;

      var rightHand := hands[RotationHandIndex(hands)];
      var rotation := RotationFromWrist(rightHand.landmarks[Wrist]);

      var expansion := RestExpansion;
      var distance := 0.0;
      if |hands| == 2 {
        distance := WristDistance(hands[0].landmarks[Wrist], hands[1].landmarks[Wrist], m);
        expansion := TwoHandExpansion(distance, OpenCount(hands));
      } else if |hands| == 1 {
        expansion := OneHandExpansion(hands[0].isOpen);
      }
      next := GestureState(hands, distance, Vec3(cx, cy, cz), expansion, rotation);
    } else {
      next := prev.(hands := [], expansion := RestExpansion);
    }
  }

  // ----- Properties of the interpreter -----

  /** One `HandData` per landmark list, in order, with score 1 and `Right` as the default label. */
  lemma HandsFollowDetection(prev: GestureState, r: DetectionResult, m: MathLib)
    requires WellFormed(r) && |r.landmarks| > 0
    ensures var s := Interpret(prev, Some(r), m);
      && |s.hands| == |r.landmarks|
      && forall i :: 0 <= i < |s.hands| ==>
           && s.hands[i].landmarks == r.landmarks[i]
           && s.hands[i].score == 1.0
           && (i >= |r.handedness| ==> s.hands[i].handLabel == Right)
           && (i < |r.handedness| ==> s.hands[i].handLabel == r.handedness[i])
  {
  }

  /** Losing the hands resets only the hand list and the expansion. */
  lemma NoHandsRest(prev: GestureState, result: Option<DetectionResult>, m: MathLib)
    requires result.Some? ==> WellFormed(result.value)
    requires !HasHands(result)
    ensures var s := Interpret(prev, result, m);
      && s.hands == [] && s.expansion == 1.0
      && s.center == prev.center && s.rotation == prev.rotation && s.distance == prev.distance
  {
  }

  predicate InBox(w: Vec3, lo: Vec3, hi: Vec3)
  {
    lo.x <= w.x <= hi.x && lo.y <= w.y <= hi.y && lo.z <= w.z <= hi.z
  }

  predicate WristsInBox(hands: seq<HandData>, lo: Vec3, hi: Vec3)
    requires HasWrists(hands)
  {
    forall i :: 0 <= i < |hands| ==> InBox(hands[i].landmarks[Wrist], lo, hi)
  }

  /** Coordinate `axis` of every wrist, in list order. */
  function WristCoords(hands: seq<HandData>, axis: nat): (c: seq<real>)
    requires HasWrists(hands)
    ensures |c| == |hands|
  {
    seq(|hands|, i requires 0 <= i < |hands| => Axis(hands[i].landmarks[Wrist], axis))
  }

  /** The accumulated wrist sum is, coordinate by coordinate, the sum of the wrist coordinates. */
  lemma {:induction false} WristSumIsSum(hands: seq<HandData>, axis: nat)
    requires HasWrists(hands)
    ensures Axis(WristSum(hands), axis) == Sum(WristCoords(hands, axis))
  {
    if |hands| > 0 {
      var init := hands[..|hands| - 1];
      WristSumIsSum(init, axis);
      assert WristCoords(hands, axis)[..|hands| - 1] == WristCoords(init, axis);
    }
  }

  /** The mean of wrists that all lie in a box lies in the same box. */
  lemma CentroidBounded(hands: seq<HandData>, lo: Vec3, hi: Vec3)
    requires HasWrists(hands) && |hands| > 0 && WristsInBox(hands, lo, hi)
    ensures InBox(Centroid(hands), lo, hi)
  {
    var s := WristSum(hands);
    AxisMeanBounded(hands, 0, lo, hi);
    AxisMeanBounded(hands, 1, lo, hi);
    AxisMeanBounded(hands, 2, lo, hi);
    assert Axis(s, 0) == s.x && Axis(s, 1) == s.y && Axis(s, 2) == s.z;
  }

  /** One coordinate of the mean wrist lies between that coordinate of the box corners. */
  lemma AxisMeanBounded(hands: seq<HandData>, axis: nat, lo: Vec3, hi: Vec3)
    requires HasWrists(hands) && |hands| > 0 && WristsInBox(hands, lo, hi)
    ensures Axis(lo, axis) <= Axis(WristSum(hands), axis) / |hands| as real <= Axis(hi, axis)
  {
    var c := WristCoords(hands, axis);
    forall i | 0 <= i < |c|
      ensures Axis(lo, axis) <= c[i] <= Axis(hi, axis)
    {
      assert InBox(hands[i].landmarks[Wrist], lo, hi);
    }
    WristSumIsSum(hands, axis);
    MeanBounded(c, Axis(lo, axis), Axis(hi, axis));
  }

  /** With hands present the centre is the mean wrist: the wrist itself for one hand, the midpoint for two. */
  lemma CenterIsMeanWrist(prev: GestureState, r: DetectionResult, m: MathLib)
    requires WellFormed(r) && 0 < |r.landmarks| <= 2
    ensures var s := Interpret(prev, Some(r), m);
      var w0 := r.landmarks[0][Wrist];
      && (|r.landmarks| == 1 ==> s.center == w0)
      && (|r.landmarks| == 2 ==>
           var w1 := r.landmarks[1][Wrist];
           s.center == Vec3((w0.x + w1.x) / 2.0, (w0.y + w1.y) / 2.0, (w0.z + w1.z) / 2.0))
  {
    var hands := BuildHands(r, m);
    var w0 := r.landmarks[0][Wrist];
    assert hands[..1][..0] == [];
    assert WristSum(hands[..1]) == Vec3(0.0 + w0.x, 0.0 + w0.y, 0.0 + w0.z);
    if |hands| == 2 {
      var w1 := r.landmarks[1][Wrist];
      assert hands[..|hands| - 1] == hands[..1];
      assert WristSum(hands) == Vec3(w0.x + w1.x, w0.y + w1.y, w0.z + w1.z);
    } else {
      assert hands[..1] == hands;
    }
  }

  /** Rotation follows the first `Right` hand, or the first hand when none is `Right`. */
  lemma RotationFollowsRightHand(prev: GestureState, r: DetectionResult, m: MathLib)
    requires WellFormed(r) && |r.landmarks| > 0
    ensures var s := Interpret(prev, Some(r), m);
      exists k :: 0 <= k < |s.hands|
        && s.rotation == Rotation((r.landmarks[k][Wrist].y - 0.5) * 2.0 * PI, (r.landmarks[k][Wrist].x - 0.5) * 2.0 * PI)
        && (s.hands[k].handLabel == Right || (k == 0 && forall j :: 0 <= j < |s.hands| ==> s.hands[j].handLabel == Left))
        && forall j :: 0 <= j < k ==> s.hands[j].handLabel == Left
  {
    var hands := BuildHands(r, m);
    var k := RotationHandIndex(hands);
    assert hands[k].landmarks == r.landmarks[k];
  }

  /** Wrists inside the image give rotation angles within half a turn either way. */
  lemma RotationRange(w: Landmark)
    requires 0.0 <= w.x <= 1.0 && 0.0 <= w.y <= 1.0
    ensures var rot := RotationFromWrist(w);
      -PI <= rot.x <= PI && -PI <= rot.y <= PI
  {
  }

  /**
   * Two hands: `distance` is the planar wrist distance, and the expansion is the
   * two-hand zoom of that distance and the number of open hands, within [0.1, 25].
   */
  lemma TwoHandScale(prev: GestureState, r: DetectionResult, m: MathLib)
    requires ValidMath(m) && WellFormed(r) && |r.landmarks| == 2
    ensures var s := Interpret(prev, Some(r), m);
      var w0 := r.landmarks[0][Wrist]; var w1 := r.landmarks[1][Wrist];
      && s.distance == Sqrt(m, Sq(w0.x - w1.x) + Sq(w0.y - w1.y)) && s.distance >= 0.0
      && s.expansion == TwoHandExpansion(s.distance, OpenCount(s.hands))
      && 0.1 <= s.expansion <= 25.0
  {
    var hands := BuildHands(r, m);
    assert hands[0].landmarks == r.landmarks[0] && hands[1].landmarks == r.landmarks[1];
    var w0 := r.landmarks[0][Wrist];
    var w1 := r.landmarks[1][Wrist];
    assert Sq(w0.x - w1.x) + Sq(w0.y - w1.y) >= 0.0;
  }

  /** One hand: expansion is 2.5 when open and 0.5 when closed; otherwise only two hands give a distance. */
  lemma OneHandScale(prev: GestureState, r: DetectionResult, m: MathLib)
    requires WellFormed(r) && |r.landmarks| > 0 && |r.landmarks| != 2
    ensures var s := Interpret(prev, Some(r), m);
      && s.distance == 0.0
      && (|r.landmarks| == 1 ==> s.expansion == (if s.hands[0].isOpen then 2.5 else 0.5))
      && (|r.landmarks| > 2 ==> s.expansion == 1.0)
  {
  }

  /** The openness multiplier of two hands is 1, 2.5 or 4. */
  lemma MultiplierValues(openCount: nat)
    requires openCount <= 2
    ensures OpennessMultiplier(openCount) in {1.0, 2.5, 4.0}
  {
  }

  /** Two-hand expansion never decreases as the wrists separate or more hands open. */
  lemma ExpansionMonotone(d1: real, d2: real, o1: nat, o2: nat)
    requires d1 <= d2 && o1 <= o2 <= 2
    ensures TwoHandExpansion(d1, o1) <= TwoHandExpansion(d2, o2)
  {
    var b1, b2 := BaseExpansion(d1), BaseExpansion(d2);
    var m1, m2 := OpennessMultiplier(o1), OpennessMultiplier(o2);
    ProductMonotone(b1, b2, m1, m2);
  }

  lemma ProductMonotone(a1: real, a2: real, b1: real, b2: real)
    requires 0.0 <= a1 <= a2 && 0.0 <= b1 <= b2
    ensures a1 * b1 <= a2 * b2
  {
    assert a2 * b1 - a1 * b1 == (a2 - a1) * b1;
    assert a2 * b2 - a2 * b1 == a2 * (b2 - b1);
  }

  /** Two closed hands with wrists at (0.3, 0.5) and (0.7, 0.5): distance 0.4, expansion 4.2. */
  lemma ScenarioTwoClosedHands(prev: GestureState, r: DetectionResult, m: MathLib)
    requires ValidMath(m) && ExactSqrt(m) && WellFormed(r) && |r.landmarks| == 2
    requires r.landmarks[0][Wrist].x == 0.3 && r.landmarks[0][Wrist].y == 0.5
    requires r.landmarks[1][Wrist].x == 0.7 && r.landmarks[1][Wrist].y == 0.5
    requires forall i :: 0 <= i < 2 ==> MeanTipDistance(r.landmarks[i], m) <= OpennessThreshold
    ensures var s := Interpret(prev, Some(r), m);
      s.distance == 0.4 && s.expansion == 4.2
  {
    var hands := BuildHands(r, m);
    assert Sq(0.3 - 0.7) + Sq(0.5 - 0.5) == 0.4 * 0.4;
    SqrtOfSquare(m, 0.4);
    assert !hands[0].isOpen && !hands[1].isOpen;
    assert OpenCount(hands) == 0 by {
      assert hands[1..][1..] == [];
    }
  }

  /** Two open hands whose wrists are 0.3 apart: expansion (0.3 - 0.05) * 12 * 4 = 12. */
  lemma ScenarioTwoOpenHands(prev: GestureState, r: DetectionResult, m: MathLib)
    requires ValidMath(m) && ExactSqrt(m) && WellFormed(r) && |r.landmarks| == 2
    requires r.landmarks[0][Wrist].x == 0.2 && r.landmarks[0][Wrist].y == 0.5
    requires r.landmarks[1][Wrist].x == 0.5 && r.landmarks[1][Wrist].y == 0.5
    requires forall i :: 0 <= i < 2 ==> MeanTipDistance(r.landmarks[i], m) > OpennessThreshold
    ensures var s := Interpret(prev, Some(r), m);
      s.distance == 0.3 && s.expansion == 12.0
  {
    var hands := BuildHands(r, m);
    assert Sq(0.2 - 0.5) + Sq(0.5 - 0.5) == 0.3 * 0.3;
    SqrtOfSquare(m, 0.3);
    assert hands[0].isOpen && hands[1].isOpen;
    assert OpenCount(hands) == 2 by {
      assert hands[1..][1..] == [];
    }
  }

  // ----- Configuration merge -----

  /** A configuration change: `None` marks a field the change does not supply. */
  datatype PartialConfig = PartialConfig(
    count: Option<nat>,
    hue: Option<real>,
    saturation: Option<real>,
    lightness: Option<real>,
    size: Option<real>,
    speed: Option<real>,
    shape: Option<VisualShape>)

  function Pick<T>(supplied: Option<T>, current: T): T
  {
    if supplied.Some? then supplied.value else current
  }

  /** `{ ...prev, ...patch }`: supplied fields replace, the rest are kept. */
  function Merge(prev: ParticleConfig, patch: PartialConfig): (c: ParticleConfig)
    ensures patch.count.Some? ==> c.count == patch.count.value
    ensures patch.count.None? ==> c.count == prev.count
    ensures patch.hue.Some? ==> c.hue == patch.hue.value
    ensures patch.hue.None? ==> c.hue == prev.hue
    ensures patch.saturation.Some? ==> c.saturation == patch.saturation.value
    ensures patch.saturation.None? ==> c.saturation == prev.saturation
    ensures patch.lightness.Some? ==> c.lightness == patch.lightness.value
    ensures patch.lightness.None? ==> c.lightness == prev.lightness
    ensures patch.size.Some? ==> c.size == patch.size.value
    ensures patch.size.None? ==> c.size == prev.size
    ensures patch.speed.Some? ==> c.speed == patch.speed.value
    ensures patch.speed.None? ==> c.speed == prev.speed
    ensures patch.shape.Some? ==> c.shape == patch.shape.value
    ensures patch.shape.None? ==> c.shape == prev.shape
  {
    ParticleConfig(
      Pick(patch.count, prev.count),
      Pick(patch.hue, prev.hue),
      Pick(patch.saturation, prev.saturation),
      Pick(patch.lightness, prev.lightness),
      Pick(patch.size, prev.size),
      Pick(patch.speed, prev.speed),
      Pick(patch.shape, prev.shape))
  }

  /** `{ ...p, ...q }` on two partial configurations. */
  function Overlay(p: PartialConfig, q: PartialConfig): PartialConfig
  {
    PartialConfig(
      if q.count.Some? then q.count else p.count,
      if q.hue.Some? then q.hue else p.hue,
      if q.saturation.Some? then q.saturation else p.saturation,
      if q.lightness.Some? then q.lightness else p.lightness,
      if q.size.Some? then q.size else p.size,
      if q.speed.Some? then q.speed else p.speed,
      if q.shape.Some? then q.shape else p.shape)
  }

  /** Applying the same change twice is applying it once. */
  lemma MergeIdempotent(c: ParticleConfig, p: PartialConfig)
    ensures Merge(Merge(c, p), p) == Merge(c, p)
  {
  }

  /** An empty change leaves the configuration as it is. */
  lemma MergeEmpty(c: ParticleConfig)
    ensures Merge(c, PartialConfig(None, None, None, None, None, None, None)) == c
  {
  }

  /** Two successive changes equal one change that overlays the second on the first. */
  lemma MergeSequence(c: ParticleConfig, p: PartialConfig, q: PartialConfig)
    ensures Merge(Merge(c, p), q) == Merge(c, Overlay(p, q))
  {
  }
}
