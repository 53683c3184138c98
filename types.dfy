/**
 * The record shapes shared by the interpreter, the detection service and the
 * particle simulator, and the configuration constants of the application.
 */
module Types {
  /** A 3D point; also a normalized hand landmark (x, y in [0,1], z relative depth). */
  datatype Vec3 = Vec3(x: real, y: real, z: real)

  type Landmark = Vec3

  /** Coordinate `axis` (0, 1 or 2 for x, y, z) of a point. */
  function Axis(v: Vec3, axis: nat): real
  {
    if axis == 0 then v.x else if axis == 1 then v.y else v.z
  }

  /** A pair of Euler angles (x and y); the z angle is always 0. */
  datatype Rotation = Rotation(x: real, y: real)

  datatype Handedness = Left | Right

  datatype HandData = HandData(landmarks: seq<Landmark>, isOpen: bool, score: real, handLabel: Handedness)

  datatype GestureState = GestureState(
    hands: seq<HandData>,
    distance: real,
    center: Vec3,
    expansion: real,
    rotation: Rotation)

  datatype VisualShape = Sphere | Cube | Torus | Heart | Dna

  datatype ParticleConfig = ParticleConfig(
    count: nat,
    hue: real,
    saturation: real,
    lightness: real,
    size: real,
    speed: real,
    shape: VisualShape)

  /**
   * What the landmark detector returns for one video frame: one landmark list
   * per detected hand and, per hand, the name of its best handedness category.
   */
  datatype DetectionResult = DetectionResult(landmarks: seq<seq<Landmark>>, handedness: seq<Handedness>)

  /** Anatomical landmark indices: the wrist and the four fingertips. */
  const Wrist: nat := 0
  const FingerTips: seq<nat> := [8, 12, 16, 20]
  /** Landmarks per hand produced by the detector. */
  const LandmarksPerHand: nat := 21

  const MaxParticles: nat := 60000
  const MinParticles: nat := 10000

  const DefaultConfig: ParticleConfig := ParticleConfig(35000, 280.0, 90.0, 60.0, 0.6, 1.2, Sphere)

  /** The gesture state the application starts with. */
  const InitialGesture: GestureState := GestureState([], 0.0, Vec3(0.5, 0.5, 0.0), 1.0, Rotation(0.0, 0.0))
}
