/**
 * The hand-detection service: a single object guarding the lifecycle of the
 * external hand landmarker, the readiness check in front of each detection,
 * and the open-hand heuristic.
 *
 * Loading the landmarker model and running it on a video frame are external:
 * the outcome of loading is a parameter of the initialisation steps, and the
 * detector itself is the function parameter `detectForVideo` of `Detect`.
 */
module HandDetection {
  import opened Wrappers
  import opened Numeric
  import opened Types

  /** An opaque handle to a loaded landmarker. */
  datatype Landmarker = Landmarker(handle: nat)

  /** The part of a video element the service looks at. */
  datatype Video = Video(readyState: int)

  /** How the synchronous part of `initialize` (before its first await) ends. */
  datatype InitStart = AlreadyReady | Busy | Started

  /** Reading a fingertip that the landmark list does not have. */
  datatype OpennessError = MissingLandmark

  /** The mean wrist-to-tip distance above which a hand counts as open. */
  const OpennessThreshold: real := 0.22

  /** The minimum `readyState` (HAVE_CURRENT_DATA) at which a frame is available. */
  const HaveCurrentData: int := 2

  class HandDetectionService {
    var landmarker: Option<Landmarker>
    var video: Option<Video>
    var isInitializing: bool

    /** Only a service without a landmarker can be in the middle of loading one. */
    ghost predicate Valid()
      reads this
    {
      isInitializing ==> landmarker.None?
    }

    constructor ()
      ensures Valid()
      ensures landmarker == None && video == None && !isInitializing
    {
      landmarker := None;
      video := None;
      isInitializing := false;
    }

    /**
     * The guards of `initialize`, up to the first await: an existing landmarker
     * answers at once, a load already in flight refuses, otherwise the flag is raised.
     */
    method BeginInitialize() returns (step: InitStart)
      requires Valid()
      modifies this`isInitializing
      ensures Valid()
      ensures old(landmarker).Some? ==> step == AlreadyReady && isInitializing == old(isInitializing)
      ensures old(landmarker).None? && old(isInitializing) ==> step == Busy && isInitializing
      ensures old(landmarker).None? && !old(isInitializing) ==> step == Started && isInitializing
    {
      if landmarker.Some? {
        return AlreadyReady;
      }
      if isInitializing {
        return Busy;
      }
      isInitializing := true;
      step := Started;
    }

    /**
     * The rest of `initialize` once the external load has finished: `loaded`
     * is the created landmarker, or `None` when loading threw. The flag is
     * lowered on both paths (the `finally` block).
     */
    method FinishInitialize(loaded: Option<Landmarker>) returns (ready: bool)
      requires Valid() && isInitializing
      modifies this`landmarker, this`isInitializing
      ensures Valid() && !isInitializing
      ensures landmarker == loaded
      ensures ready <==> loaded.Some?
    {
      if loaded.Some? {
        landmarker := loaded;
        ready := true;
      } else {
        ready := false;
      }
      isInitializing := false;
    }

    /** One whole call of `initialize` when no other call interleaves with it. */
    method Initialize(loaded: Option<Landmarker>) returns (ready: bool)
      requires Valid()
      modifies this`landmarker, this`isInitializing
      ensures Valid()
      ensures old(landmarker).Some? ==>
        ready && landmarker == old(landmarker) && isInitializing == old(isInitializing)
      ensures old(landmarker).None? && old(isInitializing) ==>
        !ready && landmarker == None && isInitializing
      ensures old(landmarker).None? && !old(isInitializing) ==>
        (ready <==> loaded.Some?) && landmarker == loaded && !isInitializing
    {
      var step := BeginInitialize();
      if step == Started {
        ready := FinishInitialize(loaded);
      } else {
        ready := step == AlreadyReady;
      }
    }

    method SetVideo(v: Video)
      modifies this`video
      ensures video == Some(v)
    {
      video := Some(v);
    }

    /** Detection may run only with a landmarker and a video that has a current frame. */
    predicate Ready()
      reads this
    {
      landmarker.Some? && video.Some? && video.value.readyState >= HaveCurrentData
    }

    /** Runs the detector on the current frame, or yields `None` when not ready. */
    function Detect(timestamp: real, detectForVideo: (Landmarker, Video, real) -> DetectionResult): (r: Option<DetectionResult>)
      reads this
      ensures r.Some? <==> landmarker.Some? && video.Some? && video.value.readyState >= HaveCurrentData
      ensures r.Some? ==> r.value == detectForVideo(landmarker.value, video.value, timestamp)
    {
      if !Ready() then None else Some(detectForVideo(landmarker.value, video.value, timestamp))
    }
  }

  /** Planar (x, y) distance from the wrist to landmark `tip`; depth is not used. */
  function TipDistance(lm: seq<Landmark>, tip: nat, m: MathLib): real
    requires tip < |lm|
  {
    Sqrt(m, Sq(lm[tip].x - lm[Wrist].x) + Sq(lm[tip].y - lm[Wrist].y))
  }

  /** The running sum `distances.reduce((a, b) => a + b, 0)` over the given tips. */
  function SumTipDistances(lm: seq<Landmark>, tips: seq<nat>, m: MathLib): real
    requires forall k :: 0 <= k < |tips| ==> tips[k] < |lm|
  {
    if |tips| == 0 then 0.0
    else SumTipDistances(lm, tips[..|tips| - 1], m) + TipDistance(lm, tips[|tips| - 1], m)
  }

  function MeanTipDistance(lm: seq<Landmark>, m: MathLib): real
    requires |lm| >= LandmarksPerHand
  {
    SumTipDistances(lm, FingerTips, m) / |FingerTips| as real
  }

  /**
   * Whether a hand is open. A missing or empty list is closed; a non-empty
   * list too short to hold every fingertip makes the source read a field of
   * an undefined landmark, which is the error here.
   */
  function CalculateHandOpenness(landmarks: Option<seq<Landmark>>, m: MathLib): (r: Result<bool, OpennessError>)
    ensures landmarks.None? || |landmarks.value| == 0 ==> r == Ok(false)
    ensures r.Err? <==> landmarks.Some? && 0 < |landmarks.value| < LandmarksPerHand
    ensures landmarks.Some? && |landmarks.value| >= LandmarksPerHand ==>
      r == Ok(MeanTipDistance(landmarks.value, m) > OpennessThreshold)
  {
    if landmarks.None? || |landmarks.value| == 0 then Ok(false)
    else if |landmarks.value| < LandmarksPerHand then Err(MissingLandmark)
    else Ok(MeanTipDistance(landmarks.value, m) > OpennessThreshold)
  }

  /** The mean is the plain average of the four wrist-to-tip distances. */
  lemma {:induction false} MeanIsAverage(lm: seq<Landmark>, m: MathLib)
    requires |lm| >= LandmarksPerHand
    ensures MeanTipDistance(lm, m) ==
      (TipDistance(lm, 8, m) + TipDistance(lm, 12, m) + TipDistance(lm, 16, m) + TipDistance(lm, 20, m)) / 4.0
  {
    var t := FingerTips;
    assert t[..3][..2][..1][..0] == [];
    assert SumTipDistances(lm, t[..3][..2][..1], m) == TipDistance(lm, 8, m);
    assert SumTipDistances(lm, t[..3][..2], m) == TipDistance(lm, 8, m) + TipDistance(lm, 12, m);
    assert SumTipDistances(lm, t[..3], m) == TipDistance(lm, 8, m) + TipDistance(lm, 12, m) + TipDistance(lm, 16, m);
  }

  /** Openness depends only on the x and y coordinates: depth never matters. */
  lemma OpennessIgnoresDepth(a: seq<Landmark>, b: seq<Landmark>, m: MathLib)
    requires |a| == |b|
    requires forall i :: 0 <= i < |a| ==> a[i].x == b[i].x && a[i].y == b[i].y
    ensures CalculateHandOpenness(Some(a), m) == CalculateHandOpenness(Some(b), m)
  {
    if |a| >= LandmarksPerHand {
      MeanIsAverage(a, m);
      MeanIsAverage(b, m);
    }
  }

  /** Every landmark moved by the same offset `d`. */
  function Shift(lm: seq<Landmark>, d: Vec3): (moved: seq<Landmark>)
    ensures |moved| == |lm|
    ensures forall i :: 0 <= i < |lm| ==> moved[i] == Vec3(lm[i].x + d.x, lm[i].y + d.y, lm[i].z + d.z)
  {
    seq(|lm|, i requires 0 <= i < |lm| => Vec3(lm[i].x + d.x, lm[i].y + d.y, lm[i].z + d.z))
  }

  /** Moving the whole hand across the image does not change whether it is open. */
  lemma OpennessTranslationInvariant(lm: seq<Landmark>, d: Vec3, m: MathLib)
    ensures CalculateHandOpenness(Some(Shift(lm, d)), m) == CalculateHandOpenness(Some(lm), m)
  {
    var moved := Shift(lm, d);
    if |lm| >= LandmarksPerHand {
      MeanIsAverage(lm, m);
      MeanIsAverage(moved, m);
      TipDistanceShift(lm, d, 8, m);
      TipDistanceShift(lm, d, 12, m);
      TipDistanceShift(lm, d, 16, m);
      TipDistanceShift(lm, d, 20, m);
    }
  }

  lemma TipDistanceShift(lm: seq<Landmark>, d: Vec3, tip: nat, m: MathLib)
    requires tip < |lm|
    ensures TipDistance(Shift(lm, d), tip, m) == TipDistance(lm, tip, m)
  {
    var moved := Shift(lm, d);
    assert moved[tip].x - moved[Wrist].x == lm[tip].x - lm[Wrist].x;
    assert moved[tip].y - moved[Wrist].y == lm[tip].y - lm[Wrist].y;
  }

  /** When every fingertip is farther than the threshold the hand is open; when none is, closed. */
  lemma OpennessFromTips(lm: seq<Landmark>, m: MathLib)
    requires |lm| >= LandmarksPerHand
    ensures (forall tip :: tip in FingerTips ==> TipDistance(lm, tip, m) > OpennessThreshold) ==>
      CalculateHandOpenness(Some(lm), m) == Ok(true)
    ensures (forall tip :: tip in FingerTips ==> TipDistance(lm, tip, m) <= OpennessThreshold) ==>
      CalculateHandOpenness(Some(lm), m) == Ok(false)
  {
    MeanIsAverage(lm, m);
    assert 8 in FingerTips && 12 in FingerTips && 16 in FingerTips && 20 in FingerTips;
  }
}
