/**
 * The particle simulator behind the visualizer: two flat coordinate buffers
 * (current positions and target shape), the smoothed centre, expansion and
 * rotation that follow the gesture state, and the per-frame step that pulls
 * every particle toward its scaled, shifted and jittered target.
 *
 * Rendering (scene, camera, texture, WebGL) is not modelled; the point size
 * and colour the frame writes to the material are fields here.
 */
module Visualizer {
  import opened Numeric
  import opened Types
  import opened Shapes

  /** Smoothing factors per frame. */
  const CenterRate: real := 0.12
  const ExpansionRate: real := 0.15
  const RotationRate: real := 0.08
  /** Fraction of the remaining distance a particle covers per frame. */
  const ApproachRate: real := 0.15

  /** Screen offset per unit of normalized hand position. */
  const CenterScaleX: real := -220.0
  const CenterScaleY: real := -160.0

  /** Point-size factor while hands are in view, and without hands. */
  const ActivePulse: real := 1.8
  const IdlePulse: real := 1.0

  /** A colour in THREE's hue/saturation/lightness form, each component scaled to [0, 1]. */
  datatype Hsl = Hsl(h: real, s: real, l: real)

  /** A new material's colour before any frame sets it: white. */
  const MaterialWhite: Hsl := Hsl(0.0, 0.0, 1.0)

  /** The scene point the hand centre maps to: image centre to origin, mirrored, depth 0. */
  function CenterGoal(g: GestureState): Vec3
  {
    Vec3((g.center.x - 0.5) * CenterScaleX, (g.center.y - 0.5) * CenterScaleY, 0.0)
  }

  /** `currentCenter.lerp(goal, 0.12)`. */
  function SmoothCenter(c: Vec3, g: GestureState): Vec3
  {
    var goal := CenterGoal(g);
    Vec3(Mix(c.x, goal.x, CenterRate), Mix(c.y, goal.y, CenterRate), Mix(c.z, goal.z, CenterRate))
  }

  function SmoothRotation(r: Rotation, goal: Rotation): Rotation
  {
    Rotation(Mix(r.x, goal.x, RotationRate), Mix(r.y, goal.y, RotationRate))
  }

  /** The turbulence clock: milliseconds to seconds, scaled by the configured speed. */
  function TurbulenceClock(time: real, speed: real): real
  {
    time * 0.001 * speed
  }

  /** Turbulence amplitude grows with the expansion so the jitter stays visible. */
  function TurbulenceScale(e: real): real
  {
    1.5 + e * 0.1
  }

  /** The wave for coordinate `axis` of a particle whose target coordinate is `t`. */
  function Wave(axis: nat, ts: real, t: real, m: MathLib): real
  {
    if axis == 0 then Sin(m, ts + t * 0.1)
    else if axis == 1 then Cos(m, ts + t * 0.1)
    else Sin(m, ts * 0.5 + t * 0.1)
  }

  function Noise(axis: nat, ts: real, t: real, e: real, m: MathLib): real
  {
    Wave(axis, ts, t, m) * TurbulenceScale(e)
  }

  /** Where coordinate `axis` of a particle with target coordinate `t` is pulled this frame. */
  function ParticleGoal(t: real, axis: nat, c: Vec3, e: real, ts: real, m: MathLib): real
  {
    t * e + Axis(c, axis) + Noise(axis, ts, t, e, m)
  }

  /** Entry j of the position buffer after one frame: 15% of the way from where it was to its goal. */
  function StepEntry(pos: seq<real>, tgt: seq<real>, j: nat, c: Vec3, e: real, ts: real, m: MathLib): real
    requires j < |pos| == |tgt|
  {
    Mix(pos[j], ParticleGoal(tgt[j], j % 3, c, e, ts, m), ApproachRate)
  }

  /** The position buffer after one frame. */
  function Stepped(pos: seq<real>, tgt: seq<real>, c: Vec3, e: real, ts: real, m: MathLib): (r: seq<real>)
    requires |pos| == |tgt|
    ensures |r| == |pos|
  {
    seq(|pos|, j requires 0 <= j < |pos| => StepEntry(pos, tgt, j, c, e, ts, m))
  }

  function ActivityPulse(g: GestureState): real
  {
    if |g.hands| > 0 then ActivePulse else IdlePulse
  }

  /** The material's point size: the configured size, pulsed by activity and a slow breathing wave. */
  function PointSize(size: real, g: GestureState, time: real, m: MathLib): real
  {
    size * ActivityPulse(g) * (1.0 + Sin(m, time * 0.003) * 0.15)
  }

  function ColorOf(cfg: ParticleConfig): Hsl
  {
    Hsl(cfg.hue / 360.0, cfg.saturation / 100.0, cfg.lightness / 100.0)
  }

  /** A fresh copy of a buffer (`Float32Array.slice()`). */
  method CopyOf(a: array<real>) returns (b: array<real>)
    ensures fresh(b) && b[..] == a[..]
  {
    b := new real[a.Length](i requires 0 <= i < a.Length reads a => a[i]);
  }

  class ParticleSystem {
    /** The `position` attribute: three coordinates per particle. */
    var positions: array<real>
    /** The `target` attribute: the shape the particles settle into. */
    var targets: array<real>
    var center: Vec3
    var expansion: real
    /**
     * The smoothed rotation; the rendered object is set to (x, y, 0) every
     * frame and starts at 0, so this field is also the object's rotation.
     */
    var rotation: Rotation
    var pointSize: real
    var color: Hsl

    /** Both buffers hold the same number of whole particles and are distinct arrays. */
    ghost predicate Valid()
      reads this
    {
      positions.Length == targets.Length && positions.Length % 3 == 0 && positions != targets
    }

    /** The `count` of the position attribute. */
    function ParticleCount(): nat
      reads this
    {
      positions.Length / 3
    }

    /**
     * `initParticles`: one generated shape, copied into both attributes; the
     * smoothed state starts at rest, and the material has the configured size
     * and THREE's default white until the first frame colours it.
     */
    constructor (cfg: ParticleConfig, m: MathLib, rnd: nat -> real)
      ensures Valid()
      ensures ParticleCount() == cfg.count
      ensures positions[..] == ShapeBuffer(cfg.shape, cfg.count, m, rnd)
      ensures targets[..] == ShapeBuffer(cfg.shape, cfg.count, m, rnd)
      ensures fresh(positions) && fresh(targets)
      ensures center == Vec3(0.0, 0.0, 0.0) && expansion == 1.0 && rotation == Rotation(0.0, 0.0)
      ensures pointSize == cfg.size && color == MaterialWhite
    {
      var pos := GenerateShapePositions(cfg.shape, cfg.count, m, rnd);
      var p := CopyOf(pos);
      var t := CopyOf(pos);
      positions := p;
      targets := t;
      center := Vec3(0.0, 0.0, 0.0);
      expansion := 1.0;
      rotation := Rotation(0.0, 0.0);
      pointSize := cfg.size;
      color := MaterialWhite;
    }

    /**
     * One run of `animate`: the centre, expansion and rotation move toward the
     * gesture, then every particle moves toward its target scaled by the new
     * expansion, shifted by the new centre and jittered by turbulence; the
     * material's colour and size follow the configuration.
     */
    method Frame(g: GestureState, cfg: ParticleConfig, time: real, m: MathLib)
      requires Valid()
      modifies this, positions
      ensures Valid() && positions == old(positions) && targets == old(targets)
      ensures targets[..] == old(targets[..])
      ensures center == SmoothCenter(old(center), g)
      ensures expansion == Mix(old(expansion), g.expansion, ExpansionRate)
      ensures rotation == SmoothRotation(old(rotation), g.rotation)
      ensures positions[..] == Stepped(old(positions[..]), targets[..], center, expansion,
                                       TurbulenceClock(time, cfg.speed), m)
      ensures pointSize == PointSize(cfg.size, g, time, m)
      ensures color == ColorOf(cfg)
    {
      center := SmoothCenter(center, g);
      expansion := expansion + (g.expansion - expansion) * ExpansionRate;
      rotation := SmoothRotation(rotation, g.rotation);
      var ts := TurbulenceClock(time, cfg.speed);

      StepParticles(ts, m);
      color := ColorOf(cfg);
      pointSize := PointSize(cfg.size, g, time, m);
    }

    /** The per-particle loop of `animate`: every coordinate moves 15% of the way to its goal. */
    method StepParticles(ts: real, m: MathLib)
      requires Valid()
      modifies positions
      ensures positions[..] == Stepped(old(positions[..]), targets[..], center, expansion, ts, m)
    {
      ghost var before := positions[..];
      ghost var tgt := targets[..];
      for i := 0 to positions.Length / 3
        invariant forall j :: 0 <= j < 3 * i ==> positions[j] == StepEntry(before, tgt, j, center, expansion, ts, m)
        invariant forall j :: 3 * i <= j < positions.Length ==> positions[j] == before[j]
      {
        Pull(i * 3, ts, m, before, tgt);
        Pull(i * 3 + 1, ts, m, before, tgt);
        Pull(i * 3 + 2, ts, m, before, tgt);
      }
      assert forall j :: 0 <= j < |before| ==> positions[j] == Stepped(before, tgt, center, expansion, ts, m)[j];
    }

    /**
     * Moves coordinate j of the buffer toward its goal: the target coordinate
     * scaled by the expansion, shifted by the centre and jittered.
     */
    method Pull(j: nat, ts: real, m: MathLib, ghost before: seq<real>, ghost tgt: seq<real>)
      requires Valid() && j < positions.Length && |before| == positions.Length && tgt == targets[..]
      requires positions[j] == before[j]
      modifies positions
      ensures positions[j] == StepEntry(before, tgt, j, center, expansion, ts, m)
      ensures forall k :: 0 <= k < positions.Length && k != j ==> positions[k] == old(positions[k])
    {
      var goal := targets[j] * expansion + Axis(center, j % 3) + Noise(j % 3, ts, targets[j], expansion, m);
      positions[j] := positions[j] + (goal - positions[j]) * ApproachRate;
    }

    /**
     * The effect on `[shape, count]`: new targets are generated; the position
     * buffer is replaced by a copy of them only when the count changes, so with
     * an unchanged count the particles fly from where they are to the new shape.
     */
    method Reconfigure(shape: VisualShape, count: nat, m: MathLib, rnd: nat -> real)
      requires Valid()
      modifies this
      ensures Valid() && ParticleCount() == count
      ensures fresh(targets) && targets[..] == ShapeBuffer(shape, count, m, rnd)
      ensures count != old(ParticleCount()) ==> fresh(positions) && positions[..] == targets[..]
      ensures count == old(ParticleCount()) ==> positions == old(positions) && positions[..] == old(positions[..])
      ensures center == old(center) && expansion == old(expansion) && rotation == old(rotation)
      ensures pointSize == old(pointSize) && color == old(color)
    {
      var newTargets := GenerateShapePositions(shape, count, m, rnd);
      if count != positions.Length / 3 {
        var copy := CopyOf(newTargets);
        positions := copy;
      }
      targets := newTargets;
      assert positions.Length == targets.Length by {
        assert |newTargets[..]| == 3 * count;
      }
    }

    /**
     * A configuration change as the component sees it: the reconfiguration
     * effect runs only when the shape or the count differs from the previous
     * render; colour, size and speed are read by the next frame.
     */
    method ConfigChanged(prev: ParticleConfig, next: ParticleConfig, m: MathLib, rnd: nat -> real)
      requires Valid()
      modifies this
      ensures Valid()
      ensures !ShapeOrCountChanged(prev, next) ==>
        positions == old(positions) && targets == old(targets) && positions[..] == old(positions[..])
        && targets[..] == old(targets[..])
      ensures ShapeOrCountChanged(prev, next) ==>
        ParticleCount() == next.count && fresh(targets) && targets[..] == ShapeBuffer(next.shape, next.count, m, rnd)
      ensures ShapeOrCountChanged(prev, next) && next.count != old(ParticleCount()) ==>
        fresh(positions) && positions[..] == targets[..]
      ensures ShapeOrCountChanged(prev, next) && next.count == old(ParticleCount()) ==>
        positions == old(positions) && positions[..] == old(positions[..])
      ensures center == old(center) && expansion == old(expansion) && rotation == old(rotation)
      ensures pointSize == old(pointSize) && color == old(color)
    {
      if ShapeOrCountChanged(prev, next) {
        Reconfigure(next.shape, next.count, m, rnd);
      }
    }
  }

  /** The dependency list of the reconfiguration effect. */
  predicate ShapeOrCountChanged(prev: ParticleConfig, next: ParticleConfig)
  {
    prev.shape != next.shape || prev.count != next.count
  }

  // ----- Properties of the frame step -----

  /**
   * `n` frames of smoothing toward a goal that does not change: the value the
   * centre, expansion and rotation components reach.
   */
  function Settle(c: real, goal: real, f: real, n: nat): real
  {
    if n == 0 then c else Mix(Settle(c, goal, f, n - 1), goal, f)
  }

  /** After n frames the gap to a held goal is the fraction (1 - f)^n of the first gap. */
  lemma {:induction false} SettleGap(c: real, goal: real, f: real, n: nat)
    ensures goal - Settle(c, goal, f, n) == Pow(1.0 - f, n) * (goal - c)
  {
    if n > 0 {
      SettleGap(c, goal, f, n - 1);
      var p := Pow(1.0 - f, n - 1);
      MixGap(Settle(c, goal, f, n - 1), goal, f);
      assert (1.0 - f) * (p * (goal - c)) == ((1.0 - f) * p) * (goal - c);
    }
  }

  /** Bernoulli's inequality in the form (1 - f)^n * (1 + n f) <= 1, for f in [0, 1]. */
  lemma {:induction false} Bernoulli(f: real, n: nat)
    requires 0.0 <= f <= 1.0
    ensures 0.0 <= Pow(1.0 - f, n) && Pow(1.0 - f, n) * (1.0 + n as real * f) <= 1.0
  {
    if n > 0 {
      Bernoulli(f, n - 1);
      var p := Pow(1.0 - f, n - 1);
      var k := (n - 1) as real;
      BernoulliStep(p, f, k);
    }
  }

  lemma BernoulliStep(p: real, f: real, k: real)
    requires 0.0 <= f <= 1.0 && 0.0 <= k && 0.0 <= p && p * (1.0 + k * f) <= 1.0
    ensures 0.0 <= (1.0 - f) * p && ((1.0 - f) * p) * (1.0 + (k + 1.0) * f) <= 1.0
  {
    MulMonotone(0.0, p, 1.0 - f);
    assert (1.0 - f) * (1.0 + (k + 1.0) * f) == (1.0 + k * f) - f * f * (k + 1.0);
    assert 0.0 <= f * f * (k + 1.0);
    MulMonotone((1.0 - f) * (1.0 + (k + 1.0) * f), 1.0 + k * f, p);
    assert ((1.0 - f) * p) * (1.0 + (k + 1.0) * f) == ((1.0 - f) * (1.0 + (k + 1.0) * f)) * p;
  }

  /**
   * Smoothing converges: with the goal held for n frames the remaining gap
   * is at most the first gap divided by 1 + n f.
   */
  lemma SettleConverges(c: real, goal: real, f: real, n: nat)
    requires 0.0 <= f <= 1.0
    ensures Abs(goal - Settle(c, goal, f, n)) * (1.0 + n as real * f) <= Abs(goal - c)
  {
    var p := SettleFactor(c, goal, f, n);
    ShrunkGap(p, 1.0 + n as real * f, goal - c, goal - Settle(c, goal, f, n));
  }

  /** The factor (1 - f)^n by which n frames shrink the gap, with Bernoulli's bound on it. */
  lemma SettleFactor(c: real, goal: real, f: real, n: nat) returns (p: real)
    requires 0.0 <= f <= 1.0
    ensures 0.0 <= p && p * (1.0 + n as real * f) <= 1.0 && goal - Settle(c, goal, f, n) == p * (goal - c)
  {
    SettleGap(c, goal, f, n);
    Bernoulli(f, n);
    p := Pow(1.0 - f, n);
  }

  /** A gap shrunk by a factor p with p * q <= 1, times q, is at most the first gap. */
  lemma ShrunkGap(p: real, q: real, d: real, g: real)
    requires 0.0 <= p && p * q <= 1.0 && g == p * d
    ensures Abs(g) * q <= Abs(d)
  {
    assert Abs(g) == p * Abs(d);
    assert Abs(g) * q == (p * q) * Abs(d);
    MulMonotone(p * q, 1.0, Abs(d));
  }

  /** A smoothed value always lies between its previous value and the goal. */
  lemma SmoothingBetween(c: real, goal: real, f: real)
    requires 0.0 <= f <= 1.0
    ensures Min(c, goal) <= Mix(c, goal, f) <= Max(c, goal)
  {
    LerpBetween(c, goal, f, Mix(c, goal, f));
  }

  /**
   * The smoothed expansion stays within [0.1, 25] when it starts there and
   * every gesture's expansion lies there.
   */
  lemma ExpansionStaysInRange(e: real, goal: real)
    requires 0.1 <= e <= 25.0 && 0.1 <= goal <= 25.0
    ensures 0.1 <= Mix(e, goal, ExpansionRate) <= 25.0
  {
    LerpBetween(e, goal, ExpansionRate, Mix(e, goal, ExpansionRate));
  }

  /** Every particle covers 15% of its distance to the goal; a particle at its goal stays. */
  lemma StepShrinksGap(pos: seq<real>, tgt: seq<real>, c: Vec3, e: real, ts: real, m: MathLib, j: nat)
    requires |pos| == |tgt| && j < |pos|
    ensures var goal := ParticleGoal(tgt[j], j % 3, c, e, ts, m);
      var r := Stepped(pos, tgt, c, e, ts, m);
      && goal - r[j] == 0.85 * (goal - pos[j])
      && Min(pos[j], goal) <= r[j] <= Max(pos[j], goal)
      && (pos[j] == goal ==> r[j] == pos[j])
  {
    var goal := ParticleGoal(tgt[j], j % 3, c, e, ts, m);
    MixGap(pos[j], goal, ApproachRate);
    SmoothingBetween(pos[j], goal, ApproachRate);
  }

  /** The turbulence displaces a particle's goal by at most 1.5 + 0.1 e along each axis. */
  lemma NoiseBounded(axis: nat, ts: real, t: real, e: real, m: MathLib)
    requires ValidMath(m) && 0.0 <= e
    ensures Abs(Noise(axis, ts, t, e, m)) <= TurbulenceScale(e)
  {
    var w := Wave(axis, ts, t, m);
    assert -1.0 <= w <= 1.0;
    ProductBounded(w, TurbulenceScale(e), 1.0, TurbulenceScale(e));
  }

  /** The point size breathes within 15% of the configured size times the activity pulse. */
  lemma PointSizeRange(size: real, g: GestureState, time: real, m: MathLib)
    requires ValidMath(m) && 0.0 <= size
    ensures var base := size * ActivityPulse(g);
      0.85 * base <= PointSize(size, g, time, m) <= 1.15 * base
    ensures ActivityPulse(g) == (if |g.hands| > 0 then 1.8 else 1.0)
  {
    var base := size * ActivityPulse(g);
    var w := 1.0 + Sin(m, time * 0.003) * 0.15;
    assert -1.0 <= Sin(m, time * 0.003) <= 1.0;
    assert 0.85 <= w <= 1.15;
    MulMonotone(0.85, w, base);
    MulMonotone(w, 1.15, base);
  }
}
