/**
 * The shape generator: for a shape and a particle count N, a flat buffer of
 * 3N coordinates where point i occupies entries 3i, 3i+1 and 3i+2.
 *
 * `Math.random()` is the draw stream `rnd`: draw number k is `rnd(k)`, each in
 * [0, 1). The generator consumes draws in a fixed order, so the draws that
 * point i uses are determined by the shape and by i (`DrawBase`).
 */
module Shapes {
  import opened Numeric
  import opened Types

  const SphereRadius: real := 25.0
  const CubeSide: real := 45.0
  const TorusMajorRadius: real := 28.0
  const TorusMinorRadius: real := 10.0
  const HeartScale: real := 1.8
  const HeartDepth: real := 12.0
  const HelixRadius: real := 12.0
  const HelixPitch: real := 8.0
  /** Particles per rung of the double helix. */
  const RungBucket: nat := 30
  /** The (approximate) cosine and sine of 45 degrees used to turn the helix. */
  const Diagonal: real := 0.7

  /** Every draw of the random stream lies in [0, 1). */
  ghost predicate UnitDraws(rnd: nat -> real)
  {
    forall k :: 0.0 <= rnd(k) < 1.0
  }

  /** Number of random draws point i consumes. */
  function DrawsAt(shape: VisualShape, i: nat): nat
  {
    match shape
    case Sphere => 0
    case Cube => 3
    case Torus => 2
    case Heart => 2
    case Dna => if i % 3 == 2 then 1 else 0
  }

  /** Number of random draws consumed before point i. */
  function DrawBase(shape: VisualShape, i: nat): nat
  {
    match shape
    case Sphere => 0
    case Cube => 3 * i
    case Torus => 2 * i
    case Heart => 2 * i
    case Dna => i / 3
  }

  lemma DrawBaseStep(shape: VisualShape, i: nat)
    ensures DrawBase(shape, i + 1) == DrawBase(shape, i) + DrawsAt(shape, i)
  {
    if shape == Dna {
      var q, r := i / 3, i % 3;
      assert i == 3 * q + r && 0 <= r < 3;
      assert i + 1 == 3 * q + (r + 1);
      if r == 2 {
        assert i + 1 == 3 * (q + 1);
      }
    }
  }

  /** The argument of `acos` for sphere point i. */
  function SphereCosine(count: nat, i: nat): real
    requires i < count
  {
    -1.0 + (2.0 * i as real) / count as real
  }

  /** Polar angle of sphere point i. */
  function SpherePhi(count: nat, i: nat, m: MathLib): real
    requires i < count
  {
    Acos(m, SphereCosine(count, i))
  }

  /** Azimuth of sphere point i: the polar angle scaled by sqrt(N * PI). */
  function SphereTheta(count: nat, i: nat, m: MathLib): real
    requires i < count
  {
    Sqrt(m, count as real * PI) * SpherePhi(count, i, m)
  }

  /** Fibonacci-lattice point i of N on the sphere of radius 25. */
  function SpherePoint(count: nat, i: nat, m: MathLib): Vec3
    requires i < count
  {
    Vec3(SphereRadius * Cos(m, SphereTheta(count, i, m)) * Sin(m, SpherePhi(count, i, m)),
         SphereRadius * Sin(m, SphereTheta(count, i, m)) * Sin(m, SpherePhi(count, i, m)),
         SphereRadius * Cos(m, SpherePhi(count, i, m)))
  }

  /** A cube coordinate from one draw. */
  function CubeCoord(r: real): real
  {
    (r - 0.5) * CubeSide
  }

  function CubePoint(rx: real, ry: real, rz: real): Vec3
  {
    Vec3(CubeCoord(rx), CubeCoord(ry), CubeCoord(rz))
  }

  /** An angle drawn uniformly from [0, 2 PI). */
  function TurnAngle(r: real): real
  {
    r * PI * 2.0
  }

  /** Torus point at angles u = 2 PI ru around the axis and v = 2 PI rv around the tube. */
  function TorusPoint(ru: real, rv: real, m: MathLib): Vec3
  {
    Vec3((TorusMajorRadius + TorusMinorRadius * Cos(m, TurnAngle(rv))) * Cos(m, TurnAngle(ru)),
         (TorusMajorRadius + TorusMinorRadius * Cos(m, TurnAngle(rv))) * Sin(m, TurnAngle(ru)),
         TorusMinorRadius * Sin(m, TurnAngle(rv)))
  }

  /** The heart curve's y at parameter t. */
  function HeartY(t: real, m: MathLib): real
  {
    13.0 * Cos(m, t) - 5.0 * Cos(m, 2.0 * t) - 2.0 * Cos(m, 3.0 * t) - Cos(m, 4.0 * t)
  }

  /** Heart curve at t = 2 PI rt, scaled by 1.8, with depth jitter from `rz`. */
  function HeartPoint(rt: real, rz: real, m: MathLib): Vec3
  {
    Vec3(16.0 * Pow(Sin(m, TurnAngle(rt)), 3) * HeartScale,
         HeartY(TurnAngle(rt), m) * HeartScale,
         (rz - 0.5) * HeartDepth)
  }

  /** Helix parameter of point i: it runs from 0 to 10 PI (five turns) over the count. */
  function HelixParam(count: nat, i: nat): real
    requires count > 0
  {
    (i as real / count as real) * PI * 10.0
  }

  /** Helix parameter shared by the rung that point i belongs to. */
  function RungParam(count: nat, i: nat): real
    requires count > 0
  {
    (i / RungBucket) as real * (RungBucket as real / count as real) * PI * 10.0
  }

  /** A strand point at angle `angle` and height parameter `t`. */
  function StrandPoint(angle: real, t: real, m: MathLib): Vec3
  {
    Vec3(HelixRadius * Cos(m, angle), HelixRadius * Sin(m, angle), HelixPitch * (t - PI * 5.0))
  }

  /** The point a fraction `f` of the way from `a` to `b`. */
  function Lerp(a: Vec3, b: Vec3, f: real): Vec3
  {
    Vec3(Mix(a.x, b.x, f), Mix(a.y, b.y, f), Mix(a.z, b.z, f))
  }

  /** Double-helix point i before the final turn: strand 0, strand 1, or a rung point. */
  function DnaRaw(count: nat, i: nat, lerp: real, m: MathLib): Vec3
    requires count > 0
  {
    var t := HelixParam(count, i);
    if i % 3 == 0 then StrandPoint(t, t, m)
    else if i % 3 == 1 then StrandPoint(t + PI, t, m)
    else
      var tFixed := RungParam(count, i);
      Lerp(StrandPoint(tFixed, tFixed, m), StrandPoint(tFixed + PI, tFixed, m), lerp)
  }

  /** The final turn of the helix about the y axis. */
  function TurnAboutY(p: Vec3): Vec3
  {
    Vec3(p.x * Diagonal - p.z * Diagonal, p.y, p.x * Diagonal + p.z * Diagonal)
  }

  function DnaPoint(count: nat, i: nat, lerp: real, m: MathLib): Vec3
    requires count > 0
  {
    TurnAboutY(DnaRaw(count, i, lerp, m))
  }

  /**
   * Point i of the shape, reading its draws from position `DrawBase(shape, i)`
   * of the stream. With sound trigonometry and draws in [0, 1), every
   * coordinate lies within the shape's bound.
   */
  function PointAt(shape: VisualShape, count: nat, i: nat, m: MathLib, rnd: nat -> real): (p: Vec3)
    requires i < count
    ensures ValidMath(m) && UnitDraws(rnd) ==> WithinBound(p, ShapeBound(shape))
  {
    var k := DrawBase(shape, i);
    match shape
    case Sphere =>
      assert ValidMath(m) ==> WithinBound(SpherePoint(count, i, m), 25.0) by {
        if ValidMath(m) { SphereBounds(count, i, m); }
      }
      SpherePoint(count, i, m)
    case Cube =>
      assert UnitDraws(rnd) ==> WithinBound(CubePoint(rnd(k), rnd(k + 1), rnd(k + 2)), 22.5) by {
        if UnitDraws(rnd) { CubeBounds(rnd(k), rnd(k + 1), rnd(k + 2)); }
      }
      CubePoint(rnd(k), rnd(k + 1), rnd(k + 2))
    case Torus =>
      assert ValidMath(m) ==> WithinBound(TorusPoint(rnd(k), rnd(k + 1), m), 38.0) by {
        if ValidMath(m) { TorusBounds(rnd(k), rnd(k + 1), m); }
      }
      TorusPoint(rnd(k), rnd(k + 1), m)
    case Heart =>
      assert ValidMath(m) && UnitDraws(rnd) ==> WithinBound(HeartPoint(rnd(k), rnd(k + 1), m), 37.8) by {
        if ValidMath(m) && UnitDraws(rnd) { HeartBounds(rnd(k), rnd(k + 1), m); }
      }
      HeartPoint(rnd(k), rnd(k + 1), m)
    case Dna =>
      var lerp := if i % 3 == 2 then rnd(k) else 0.0;
      assert ValidMath(m) && UnitDraws(rnd) ==> WithinBound(DnaPoint(count, i, lerp, m), ShapeBound(Dna)) by {
        if ValidMath(m) && UnitDraws(rnd) { DnaRawBounds(count, i, lerp, m); }
      }
      DnaPoint(count, i, lerp, m)
  }

  /** The three coordinates of a point, in buffer order. */
  function Coords(p: Vec3): (c: seq<real>)
    ensures |c| == 3
  {
    [p.x, p.y, p.z]
  }

  /** A sequence of points flattened to their coordinates, point after point. */
  function Flatten(ps: seq<Vec3>): (b: seq<real>)
    ensures |b| == 3 * |ps|
  {
    if |ps| == 0 then [] else Flatten(ps[..|ps| - 1]) + Coords(ps[|ps| - 1])
  }

  /** The N points of the shape, in generation order. */
  function ShapePoints(shape: VisualShape, count: nat, m: MathLib, rnd: nat -> real): (ps: seq<Vec3>)
    ensures |ps| == count
    ensures forall i :: 0 <= i < count ==> ps[i] == PointAt(shape, count, i, m, rnd)
  {
    seq(count, i requires 0 <= i < count => PointAt(shape, count, i, m, rnd))
  }

  /** The flat buffer of all N points. */
  function ShapeBuffer(shape: VisualShape, count: nat, m: MathLib, rnd: nat -> real): (b: seq<real>)
    ensures |b| == 3 * count
  {
    Flatten(ShapePoints(shape, count, m, rnd))
  }

  /**
   * The coordinates of point i, computed from the draws at cursor `k`, and the
   * cursor after the draws it consumes.
   */
  method NextPoint(shape: VisualShape, count: nat, i: nat, k: nat, m: MathLib, rnd: nat -> real)
    returns (p: Vec3, next: nat)
    requires i < count && k == DrawBase(shape, i)
    ensures p == PointAt(shape, count, i, m, rnd)
    ensures next == DrawBase(shape, i + 1)
  {
    DrawBaseStep(shape, i);
    next := k;
    match shape {
      case Sphere =>
        p := SpherePoint(count, i, m);
      case Cube =>
        p := CubePoint(rnd(k), rnd(k + 1), rnd(k + 2));
        next := k + 3;
      case Torus =>
        p := TorusPoint(rnd(k), rnd(k + 1), m);
        next := k + 2;
      case Heart =>
        p := HeartPoint(rnd(k), rnd(k + 1), m);
        next := k + 2;
      case Dna =>
        var lerp := 0.0;
        if i % 3 == 2 {
          lerp := rnd(k);
          next := k + 1;
        }
        p := DnaPoint(count, i, lerp, m);
    }
  }

  /** Writes the coordinates of point i to entries 3i, 3i+1 and 3i+2, extending the filled prefix. */
  method StorePoint(a: array<real>, i: nat, p: Vec3)
    requires 3 * i + 3 <= a.Length
    modifies a
    ensures a[..3 * (i + 1)] == old(a[..3 * i]) + Coords(p)
    ensures a[3 * (i + 1)..] == old(a[3 * (i + 1)..])
  {
    a[i * 3] := p.x;
    a[i * 3 + 1] := p.y;
    a[i * 3 + 2] := p.z;
    assert a[..3 * (i + 1)] == old(a[..3 * i]) + Coords(p);
  }

  /** `generateShapePositions`: fills a fresh 3N buffer point by point, drawing as it goes. */
  method GenerateShapePositions(shape: VisualShape, count: nat, m: MathLib, rnd: nat -> real)
    returns (positions: array<real>)
    ensures fresh(positions)
    ensures positions[..] == ShapeBuffer(shape, count, m, rnd)
  {
    positions := new real[count * 3];
    ghost var points := ShapePoints(shape, count, m, rnd);
    var k := 0;
    for i := 0 to count
      invariant positions.Length == 3 * count
      invariant k == DrawBase(shape, i)
      invariant positions[..3 * i] == Flatten(points[..i])
    {
      var p;
      p, k := NextPoint(shape, count, i, k, m, rnd);
      StorePoint(positions, i, p);
      FlattenStep(points, i);
    }
    assert points[..count] == points;
    assert positions[..] == positions[..3 * count];
  }

  // ----- Properties of the generated shapes -----

  /** Extending a prefix of the points by one point extends its flattening by that point's coordinates. */
  lemma FlattenStep(ps: seq<Vec3>, i: nat)
    requires i < |ps|
    ensures Flatten(ps[..i + 1]) == Flatten(ps[..i]) + Coords(ps[i])
  {
    assert ps[..i + 1][..i] == ps[..i];
  }

  /** Point i occupies entries 3i, 3i+1 and 3i+2 of the flattened buffer. */
  lemma {:induction false} FlattenLayout(ps: seq<Vec3>, i: nat)
    requires i < |ps|
    ensures Flatten(ps)[3 * i..3 * i + 3] == Coords(ps[i])
  {
    var init := ps[..|ps| - 1];
    var b := Flatten(init);
    assert Flatten(ps) == b + Coords(ps[|ps| - 1]);
    if i < |ps| - 1 {
      FlattenLayout(init, i);
      assert (b + Coords(ps[|ps| - 1]))[3 * i..3 * i + 3] == b[3 * i..3 * i + 3];
    } else {
      assert (b + Coords(ps[|ps| - 1]))[3 * i..3 * i + 3] == Coords(ps[|ps| - 1]);
    }
  }

  /** Point i of the shape occupies entries 3i, 3i+1 and 3i+2 of the generated buffer. */
  lemma BufferLayout(shape: VisualShape, count: nat, i: nat, m: MathLib, rnd: nat -> real)
    requires i < count
    ensures ShapeBuffer(shape, count, m, rnd)[3 * i..3 * i + 3] == Coords(PointAt(shape, count, i, m, rnd))
  {
    FlattenLayout(ShapePoints(shape, count, m, rnd), i);
  }

  /** The `acos` argument of sphere point i lies in [-1, 1). */
  lemma SphereCosineRange(count: nat, i: nat)
    requires i < count
    ensures -1.0 <= SphereCosine(count, i) < 1.0
  {
    var n := count as real;
    FractionBelowOne(i as real, n);
    assert (2.0 * i as real) / n == 2.0 * (i as real / n);
  }

  /** Every sphere coordinate lies within the radius. */
  lemma SphereBounds(count: nat, i: nat, m: MathLib)
    requires ValidMath(m) && i < count
    ensures var p := SpherePoint(count, i, m);
      Abs(p.x) <= 25.0 && Abs(p.y) <= 25.0 && -25.0 <= p.z <= 25.0
  {
    var p := SpherePoint(count, i, m);
    var phi, theta := SpherePhi(count, i, m), SphereTheta(count, i, m);
    RadiusTimesUnits(Cos(m, theta), Sin(m, phi), p.x);
    RadiusTimesUnits(Sin(m, theta), Sin(m, phi), p.y);
    assert -1.0 <= Cos(m, phi) <= 1.0;
  }

  /** The radius times two values in [-1, 1] lies within the radius. */
  lemma RadiusTimesUnits(a: real, b: real, r: real)
    requires -1.0 <= a <= 1.0 && -1.0 <= b <= 1.0 && r == SphereRadius * a * b
    ensures Abs(r) <= 25.0
  {
    ProductBounded(SphereRadius * a, b, 25.0, 1.0);
  }

  /** Cube coordinates from draws in [0, 1) lie in [-22.5, 22.5). */
  lemma CubeBounds(rx: real, ry: real, rz: real)
    requires 0.0 <= rx < 1.0 && 0.0 <= ry < 1.0 && 0.0 <= rz < 1.0
    ensures var p := CubePoint(rx, ry, rz);
      -22.5 <= p.x < 22.5 && -22.5 <= p.y < 22.5 && -22.5 <= p.z < 22.5
  {
  }

  /** Torus depth is 10 sin v, within [-10, 10]; the other coordinates are within 28 + 10. */
  lemma TorusBounds(ru: real, rv: real, m: MathLib)
    requires ValidMath(m)
    ensures var p := TorusPoint(ru, rv, m);
      -10.0 <= p.z <= 10.0 && Abs(p.x) <= 38.0 && Abs(p.y) <= 38.0
  {
    var u, v := TurnAngle(ru), TurnAngle(rv);
    var ring := TorusMajorRadius + TorusMinorRadius * Cos(m, v);
    assert -1.0 <= Cos(m, v) <= 1.0 && -1.0 <= Sin(m, v) <= 1.0;
    assert -1.0 <= Cos(m, u) <= 1.0 && -1.0 <= Sin(m, u) <= 1.0;
    assert 18.0 <= ring <= 38.0;
    ProductBounded(ring, Cos(m, u), 38.0, 1.0);
    ProductBounded(ring, Sin(m, u), 38.0, 1.0);
  }

  /** Heart depth lies in [-6, 6); the curve lies within 16 * 1.8 across and 21 * 1.8 up. */
  lemma HeartBounds(rt: real, rz: real, m: MathLib)
    requires ValidMath(m) && 0.0 <= rz < 1.0
    ensures var p := HeartPoint(rt, rz, m);
      -6.0 <= p.z < 6.0 && Abs(p.x) <= 28.8 && Abs(p.y) <= 37.8
  {
    var t := TurnAngle(rt);
    var s := Sin(m, t);
    assert -1.0 <= s <= 1.0;
    assert -1.0 <= Cos(m, t) <= 1.0 && -1.0 <= Cos(m, 2.0 * t) <= 1.0;
    assert -1.0 <= Cos(m, 3.0 * t) <= 1.0 && -1.0 <= Cos(m, 4.0 * t) <= 1.0;
    assert -21.0 <= HeartY(t, m) <= 21.0;
    PowBounded(s, 3);
  }

  /** Helix parameters of points and rungs lie in [0, 10 PI). */
  lemma HelixParamRange(count: nat, i: nat)
    requires i < count
    ensures 0.0 <= HelixParam(count, i) < PI * 10.0
    ensures 0.0 <= RungParam(count, i) <= HelixParam(count, i)
  {
    var n := count as real;
    var f := i as real / n;
    FractionBelowOne(i as real, n);
    ScaleBelow(f, PI * 10.0);
    assert HelixParam(count, i) == f * (PI * 10.0);
    var b := (i / RungBucket) as real;
    assert b * 30.0 <= i as real;
    var g := b * (30.0 / n);
    assert g == (b * 30.0) / n;
    DivMonotone(0.0, b * 30.0, n);
    DivMonotone(b * 30.0, i as real, n);
    MulMonotone(0.0, g, PI * 10.0);
    MulMonotone(g, f, PI * 10.0);
    assert RungParam(count, i) == g * (PI * 10.0);
  }

  /**
   * Double helix before the final turn: points with i % 3 == 0 and 1 lie on the
   * two strands at the point's own parameter, half a turn apart; rung points lie
   * on the segment between the strands at the rung's parameter, a fraction in
   * [0, 1) of the way across.
   */
  lemma DnaStructure(count: nat, i: nat, m: MathLib, rnd: nat -> real)
    requires UnitDraws(rnd) && i < count
    ensures var raw := DnaRaw(count, i, if i % 3 == 2 then rnd(DrawBase(Dna, i)) else 0.0, m);
      var t := HelixParam(count, i);
      && PointAt(Dna, count, i, m, rnd) == TurnAboutY(raw)
      && (i % 3 == 0 ==> raw == StrandPoint(t, t, m))
      && (i % 3 == 1 ==> raw == StrandPoint(t + PI, t, m))
      && (i % 3 == 2 ==>
            var tf := RungParam(count, i);
            var f := rnd(DrawBase(Dna, i));
            0.0 <= f < 1.0 && raw == Lerp(StrandPoint(tf, tf, m), StrandPoint(tf + PI, tf, m), f))
  {
  }

  /** The final turn keeps y and maps (x, z) to (0.7x - 0.7z, 0.7x + 0.7z). */
  lemma TurnKeepsHeight(p: Vec3)
    ensures var q := TurnAboutY(p);
      q.y == p.y && q.x == 0.7 * (p.x - p.z) && q.z == 0.7 * (p.x + p.z)
  {
  }

  /** Strand points stay within the helix radius across and within 40 PI along the axis. */
  lemma StrandBounds(angle: real, t: real, m: MathLib)
    requires ValidMath(m) && 0.0 <= t < PI * 10.0
    ensures var p := StrandPoint(angle, t, m);
      Abs(p.x) <= 12.0 && Abs(p.y) <= 12.0 && -40.0 * PI <= p.z < 40.0 * PI
  {
    assert -1.0 <= Cos(m, angle) <= 1.0 && -1.0 <= Sin(m, angle) <= 1.0;
  }

  lemma DnaRawBounds(count: nat, i: nat, lerp: real, m: MathLib)
    requires ValidMath(m) && i < count && 0.0 <= lerp < 1.0
    ensures var p := DnaRaw(count, i, lerp, m);
      Abs(p.x) <= 12.0 && Abs(p.y) <= 12.0 && -40.0 * PI <= p.z < 40.0 * PI
  {
    HelixParamRange(count, i);
    var t := HelixParam(count, i);
    if i % 3 == 0 {
      StrandBounds(t, t, m);
    } else if i % 3 == 1 {
      StrandBounds(t + PI, t, m);
    } else {
      RungBounds(RungParam(count, i), lerp, m);
    }
  }

  lemma RungBounds(tf: real, lerp: real, m: MathLib)
    requires ValidMath(m) && 0.0 <= tf < PI * 10.0 && 0.0 <= lerp < 1.0
    ensures var p := Lerp(StrandPoint(tf, tf, m), StrandPoint(tf + PI, tf, m), lerp);
      Abs(p.x) <= 12.0 && Abs(p.y) <= 12.0 && -40.0 * PI <= p.z < 40.0 * PI
  {
    var a := StrandPoint(tf, tf, m);
    var b := StrandPoint(tf + PI, tf, m);
    StrandBounds(tf, tf, m);
    StrandBounds(tf + PI, tf, m);
    LerpBounded(a.x, b.x, lerp, 12.0);
    LerpBounded(a.y, b.y, lerp, 12.0);
    LerpBetween(a.z, b.z, lerp, Mix(a.z, b.z, lerp));
  }

  /** A point between two values within [-k, k] is within [-k, k]. */
  lemma LerpBounded(a: real, b: real, f: real, k: real)
    requires Abs(a) <= k && Abs(b) <= k && 0.0 <= f <= 1.0
    ensures Abs(Mix(a, b, f)) <= k
  {
    LerpBetween(a, b, f, Mix(a, b, f));
  }

  /** Largest absolute coordinate a point of each shape can have. */
  function ShapeBound(shape: VisualShape): real
  {
    match shape
    case Sphere => 25.0
    case Cube => 22.5
    case Torus => 38.0
    case Heart => 37.8
    case Dna => 0.7 * (12.0 + 40.0 * PI)
  }

  /** Every entry of a generated buffer is within the shape's bound. */
  lemma BufferBounded(shape: VisualShape, count: nat, m: MathLib, rnd: nat -> real)
    requires ValidMath(m) && UnitDraws(rnd)
    ensures forall j :: 0 <= j < 3 * count ==> Abs(ShapeBuffer(shape, count, m, rnd)[j]) <= ShapeBound(shape)
  {
    var ps := ShapePoints(shape, count, m, rnd);
    FlattenBounded(ps, ShapeBound(shape));
  }

  /** No coordinate of `p` exceeds `k` in absolute value. */
  predicate WithinBound(p: Vec3, k: real)
  {
    Abs(p.x) <= k && Abs(p.y) <= k && Abs(p.z) <= k
  }

  lemma {:induction false} FlattenBounded(ps: seq<Vec3>, k: real)
    requires forall i :: 0 <= i < |ps| ==> WithinBound(ps[i], k)
    ensures forall j :: 0 <= j < 3 * |ps| ==> Abs(Flatten(ps)[j]) <= k
  {
    if |ps| > 0 {
      FlattenBounded(ps[..|ps| - 1], k);
    }
  }
}
