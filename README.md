# Hand-gesture particle visualizer: the gesture-to-particle pipeline

The application watches the user's hands through a webcam. Each frame it turns the
detected hand landmarks into a gesture state: the hands seen, the centre of the wrists,
the distance between two wrists, a zoom factor called "expansion", and a rotation. A
particle cloud of tens of thousands of points follows that gesture. The cloud is pulled
toward a target shape (sphere, cube, torus, heart or double helix). The shape is scaled
by the smoothed expansion, shifted by the smoothed centre and jittered by turbulence.

This project models that pipeline in Dafny and proves what it promises:

- `HandDetection` (hand_detection.dfy) models the detection service.
  - The landmarker's lifecycle is a small guard state machine over `landmarker` and
    `isInitializing`.
  - `setVideo` records the video, and `detect` only runs when the service is ready.
  - The open-hand heuristic is the mean planar wrist-to-fingertip distance against 0.22.
- `App` (app.dfy) models the per-frame interpreter.
  - A detection result becomes a `GestureState`.
  - `Update` is the imperative version. Like the source, it accumulates the wrist sum
    in a loop.
  - The partial configuration merge `{ ...prev, ...patch }` is modelled too.
- `Shapes` (shapes.dfy) models `generateShapePositions`.
  - It fills a fresh array of 3·N coordinates in an index loop.
  - It is proved equal to a specification buffer, and that buffer's layout, structure
    and bounds are proved separately.
- `Visualizer` (visualizer.dfy) models the particle system as a class over two arrays,
  `positions` and `targets`, plus the smoothed centre, expansion and rotation.
  - The constructor is `initParticles`.
  - `Frame` is one run of `animate`, with the per-particle loop in `StepParticles`.
  - `Reconfigure` and `ConfigChanged` are the effect on `[shape, count]`.
- `Numeric`, `Types` and `Wrappers` hold the shared arithmetic, the records and
  constants of types.ts and constants.ts, and `Option`/`Result`.

The following are parameters rather than calls:

- Trigonometry and square roots come from a `MathLib` value. Only their elementary
  ranges are assumed (`ValidMath`). Exact squaring back (`ExactSqrt`) is assumed only
  by the two worked examples.
- `Math.random()` is a stream `rnd: nat -> real` of draws in [0, 1). Point i of a shape
  reads its draws from a fixed position in the stream (`DrawBase`).
- The MediaPipe detector is the function parameter of `Detect`. The outcome of loading
  the model is the parameter of `FinishInitialize`.

Where the description of the program and its code disagree, the code is followed:

- With no hands in view, the code keeps the previous `distance` (`{ ...prev, hands: [],
  expansion: 1.0 }`) rather than resetting it to 0.
- A landmark list with 1 to 20 entries makes `calculateHandOpenness` read a field of an
  undefined landmark, which throws. The model returns `Err(MissingLandmark)` there.
  The interpreter requires every list to hold the detector's 21 landmarks.

## Model

| member | source | states |
|---|---|---|
| HandDetection.HandDetectionService.constructor | services/handDetectionService.ts:4-7 | A new service has no landmarker, no video and is not initializing |
| HandDetection.HandDetectionService.BeginInitialize | services/handDetectionService.ts:13-22 | With a landmarker it answers "ready" and changes nothing; while a load is in flight it answers "busy" and changes nothing; otherwise it raises `isInitializing`; never initializing while a landmarker exists |
| HandDetection.HandDetectionService.FinishInitialize | services/handDetectionService.ts:24-50 | After the load the flag is lowered on success and failure alike; the result is true exactly when a landmarker was created, which is then stored; on failure the landmarker stays absent so a later call retries |
| HandDetection.HandDetectionService.Initialize | services/handDetectionService.ts:13-51 | A whole uninterrupted `initialize`: true at once with a landmarker, false with nothing changed while busy, else succeeds exactly when loading does and ends with the flag lowered |
| HandDetection.HandDetectionService.SetVideo | services/handDetectionService.ts:53-55 | The service now holds the given video and nothing else changes |
| HandDetection.HandDetectionService.Detect | services/handDetectionService.ts:57-60 | A result exists exactly when a landmarker and a video are set and the video's readyState is at least 2, and then it is the detector's output for this frame |
| HandDetection.CalculateHandOpenness | services/handDetectionService.ts:62-79 | Missing or empty landmarks are closed; a list too short for the fingertips is an error; otherwise open exactly when the mean tip distance exceeds 0.22 |
| HandDetection.MeanIsAverage | services/handDetectionService.ts:66-76 | The reduced mean equals the average of the four wrist-to-tip distances for tips 8, 12, 16 and 20 |
| HandDetection.OpennessIgnoresDepth | services/handDetectionService.ts:69-74 | Two hands with equal x and y coordinates have the same openness: z is never read |
| HandDetection.OpennessTranslationInvariant | services/handDetectionService.ts:66-78 | Moving every landmark by the same offset does not change openness |
| HandDetection.OpennessFromTips | services/handDetectionService.ts:69-78 | All four tips beyond 0.22 from the wrist make the hand open; all four within 0.22 make it closed |
| App.BuildHands | App.tsx:79-84 | One hand per landmark list, in order, with those landmarks, score 1.0, the reported handedness or `Right` by default, and `isOpen` exactly when the mean tip distance exceeds 0.22 |
| App.FindRight | App.tsx:94 | The index found is the first hand labelled `Right`; when none is found, no hand is `Right` |
| App.RotationHandIndex | App.tsx:94-95 | The steering hand index is always a valid index |
| App.OpenCount | App.tsx:108 | The number of open hands never exceeds the number of hands |
| App.TwoHandExpansion | App.tsx:107-110 | The two-hand expansion always lies in [0.1, 25] |
| App.Interpret | App.tsx:78-118 | The published hand list is non-empty exactly when the result holds a landmark list, with one hand per list; the expansion lies in [0.1, 25] whatever was detected |
| App.Update | App.tsx:74-118 | The imperative frame callback, which sums the wrists in a loop, publishes exactly the interpreted gesture state when tracking and leaves the state alone otherwise |
| App.HandsFollowDetection | App.tsx:79-84 | With hands present the state holds one hand per landmark list, in order, with score 1.0 and label `Right` when no handedness entry exists |
| App.NoHandsRest | App.tsx:78-118 | With no result or no landmarks, the hands are cleared and expansion is 1.0, while centre, rotation and distance are carried over |
| App.WristSumIsSum | App.tsx:86-90 | Each coordinate of the accumulated wrist sum is the sum of that coordinate over all wrists |
| App.AxisMeanBounded | App.tsx:86-91 | Each coordinate of the mean wrist lies between the bounds of that coordinate for all wrists |
| App.CentroidBounded | App.tsx:86-91 | The centre of wrists that all lie in a box lies in that box |
| App.CenterIsMeanWrist | App.tsx:86-115 | The published centre is the wrist itself for one hand and the wrists' midpoint for two |
| App.RotationFollowsRightHand | App.tsx:93-98 | The rotation is ((y-0.5)·2π, (x-0.5)·2π) of the wrist of the first `Right` hand, or of the first hand when none is `Right` |
| App.RotationRange | App.tsx:96-97 | Wrists inside the image give rotation angles in [-π, π] |
| App.TwoHandScale | App.tsx:103-110 | With two hands, `distance` is the non-negative planar wrist distance and the expansion is the capped zoom of it, within [0.1, 25] |
| App.OneHandScale | App.tsx:100-113 | With one hand the expansion is 2.5 if open and 0.5 if closed; `distance` is 0 unless there are exactly two hands |
| App.MultiplierValues | App.tsx:109 | The openness multiplier of two hands is 1, 2.5 or 4 |
| App.ExpansionMonotone | App.tsx:107-110 | The two-hand expansion never decreases as the wrist distance or the number of open hands grows |
| App.ProductMonotone | App.tsx:110 | A product of non-negative factors grows with each factor (used for the monotone zoom) |
| App.ScenarioTwoClosedHands | App.tsx:103-110 | Two closed hands with wrists 0.4 apart give distance 0.4 and expansion (0.4-0.05)·12 = 4.2 |
| App.ScenarioTwoOpenHands | App.tsx:103-110 | Two open hands with wrists 0.3 apart give expansion (0.3-0.05)·12·4 = 12 |
| App.Merge | App.tsx:126-128 | Each field of the merged configuration is the supplied value when one is given and the previous value otherwise |
| App.MergeIdempotent | App.tsx:126-128 | Applying the same partial configuration twice equals applying it once |
| App.MergeEmpty | App.tsx:126-128 | An empty partial configuration changes nothing |
| App.MergeSequence | App.tsx:126-128 | Two successive merges equal one merge of the second change spread over the first |
| Shapes.PointAt | components/Visualizer.tsx:55-109 | Point i of each shape, reading its draws at the shape's fixed stream position; with sound trigonometry and draws in [0, 1) every coordinate lies within the shape's bound (25, 22.5, 38, 37.8, or 0.7·(12 + 40π) for dna) |
| Shapes.GenerateShapePositions | components/Visualizer.tsx:52-115 | The loop returns a fresh array whose contents are exactly the specification buffer of the shape: point after point, drawing in the source's order |
| Shapes.NextPoint | components/Visualizer.tsx:55-109 | The point computed in one loop iteration is the shape's point i, and the draw cursor advances by the draws that point consumes |
| Shapes.StorePoint | components/Visualizer.tsx:110-112 | Writing point i extends the filled prefix of the buffer by exactly its x, y and z; entries from 3i+3 on are unchanged |
| Shapes.DrawBaseStep | components/Visualizer.tsx:62-94 | Draws are consumed in order: 3 per cube point, 2 per torus or heart point, 1 per third dna point, none for the sphere |
| Shapes.ShapeBuffer | components/Visualizer.tsx:53 | The buffer holds exactly 3·count coordinates |
| Shapes.FlattenStep | components/Visualizer.tsx:110-112 | Flattening one more point appends its three coordinates |
| Shapes.FlattenLayout | components/Visualizer.tsx:110-112 | In a flattened buffer, point i occupies entries 3i, 3i+1 and 3i+2 |
| Shapes.BufferLayout | components/Visualizer.tsx:53-112 | In the generated buffer, entries 3i..3i+2 are the coordinates of the shape's point i |
| Shapes.SphereCosineRange | components/Visualizer.tsx:57 | The `acos` argument -1 + 2i/count lies in [-1, 1) for every i < count |
| Shapes.SphereBounds | components/Visualizer.tsx:57-61 | Every sphere coordinate lies in [-25, 25] |
| Shapes.CubeBounds | components/Visualizer.tsx:62-65 | Cube coordinates from draws in [0, 1) lie in [-22.5, 22.5) |
| Shapes.TorusBounds | components/Visualizer.tsx:66-72 | Torus z = 10·sin v lies in [-10, 10], and x and y lie within 28 + 10 |
| Shapes.HeartBounds | components/Visualizer.tsx:73-78 | Heart z lies in [-6, 6); x and y lie within 1.8·16 and 1.8·21 |
| Shapes.HelixParamRange | components/Visualizer.tsx:81-95 | The helix parameter of point i lies in [0, 10π), and the rung parameter from bucket floor(i/30) lies between 0 and it |
| Shapes.DnaStructure | components/Visualizer.tsx:79-108 | A dna point is chosen by i mod 3: points on the two strands half a turn apart, or rung points on the segment between the strands at the rung parameter, a fraction in [0, 1) of the way across; then the final turn is applied |
| Shapes.TurnKeepsHeight | components/Visualizer.tsx:106-108 | The final turn keeps y and maps (x, z) to (0.7x-0.7z, 0.7x+0.7z) |
| Shapes.StrandBounds | components/Visualizer.tsx:85-92 | Strand points lie within radius 12 across and within 40π along the axis |
| Shapes.DnaRawBounds | components/Visualizer.tsx:80-105 | Every dna point before the turn lies within 12 across and within 40π along the axis |
| Shapes.RungBounds | components/Visualizer.tsx:93-105 | Rung points lie within the same bounds as the strands they join |
| Shapes.BufferBounded | components/Visualizer.tsx:52-115 | Every entry of a generated buffer lies within the shape's bound |
| Visualizer.CopyOf | components/Visualizer.tsx:136-137 | `slice()` returns a fresh array with the same contents |
| Visualizer.Stepped | components/Visualizer.tsx:179-195 | The stepped buffer has as many entries as the position buffer |
| Visualizer.ParticleSystem.constructor | components/Visualizer.tsx:133-151 | Positions and targets are two distinct fresh copies of the same generated buffer of 3·count entries; the smoothed state starts at rest; the material has the configured size and THREE's default white colour, which the first frame replaces |
| Visualizer.ParticleSystem.Frame | components/Visualizer.tsx:155-208 | One frame smooths the centre by 0.12, the expansion by 0.15 and the rotation by 0.08 toward the gesture; it then steps every coordinate of the position buffer; targets and both buffer lengths are unchanged; the point size and colour follow the configuration |
| Visualizer.ParticleSystem.StepParticles | components/Visualizer.tsx:177-195 | The per-particle loop makes the position buffer exactly the stepped buffer: every coordinate of all count particles moves 15% toward target·expansion + centre + noise |
| Visualizer.ParticleSystem.Pull | components/Visualizer.tsx:180-194 | One coordinate moves 15% of the way to its goal; every other coordinate is unchanged |
| Visualizer.ParticleSystem.Reconfigure | components/Visualizer.tsx:225-235 | New targets are a fresh buffer of 3·count entries; the positions become a fresh copy of them exactly when the count differs from the current particle count, and are otherwise untouched; smoothed state, size and colour are unchanged |
| Visualizer.ParticleSystem.ConfigChanged | components/Visualizer.tsx:225-235 | Both buffers are untouched unless the shape or count changed; when one did, the targets are a fresh buffer of the new shape and count, and the positions become a fresh copy of them exactly when the count differs from the current particle count and are otherwise untouched; smoothed state, size and colour never change |
| Visualizer.SettleGap | components/Visualizer.tsx:168-174 | After n frames toward a held goal, the gap is (1-α)^n times the first gap |
| Visualizer.Bernoulli | components/Visualizer.tsx:168-174 | For α in [0, 1], (1-α)^n is non-negative and (1-α)^n·(1+nα) <= 1 |
| Visualizer.BernoulliStep | components/Visualizer.tsx:168-174 | The induction step of Bernoulli's bound |
| Visualizer.SettleConverges | components/Visualizer.tsx:168-174 | Smoothing converges: after n frames the gap times 1+nα is at most the first gap |
| Visualizer.SettleFactor | components/Visualizer.tsx:168-174 | n frames shrink the gap by a factor p with 0 <= p and p·(1+nα) <= 1 |
| Visualizer.ShrunkGap | components/Visualizer.tsx:168-174 | A gap shrunk by such a factor, times 1+nα, is at most the first gap |
| Visualizer.SmoothingBetween | components/Visualizer.tsx:168-174 | A smoothed value lies between its previous value and the goal |
| Visualizer.ExpansionStaysInRange | components/Visualizer.tsx:171 | The smoothed expansion stays in [0.1, 25] when it starts there and the gesture's expansion is there |
| Visualizer.StepShrinksGap | components/Visualizer.tsx:182-194 | A stepped coordinate's gap to its goal is exactly 0.85 of the previous gap, the coordinate lies between its old value and the goal, and a coordinate at its goal stays |
| Visualizer.NoiseBounded | components/Visualizer.tsx:187-190 | The turbulence displacement is at most 1.5 + 0.1·expansion along each axis |
| Visualizer.PointSizeRange | components/Visualizer.tsx:202-203 | The pulse is 1.8 with hands in view and 1.0 without; the size lies within 15% of the configured size times the pulse |
| Numeric.Sq | App.tsx:106 | A square is non-negative |
| Numeric.SumBounded | App.tsx:86-91 | A sum of n values in [lo, hi] lies in [n·lo, n·hi] |
| Numeric.MeanBounded | App.tsx:86-91 | The mean of values in [lo, hi] lies in [lo, hi] |
| Numeric.LerpBetween | components/Visualizer.tsx:168-174 | A linear interpolation with a fraction in [0, 1] lies between its end points |
| Numeric.MixGap | components/Visualizer.tsx:168-194 | One smoothing step leaves the fraction 1-α of the gap to the goal |
| Numeric.SqrtOfSquare | App.tsx:106 | With an exact square root, the root of r² is r for r >= 0 |

## Left out

- Rendering: the React component tree and JSX (splash screen, sidebar, cursor, onboarding, consent banner, feedback popup), the THREE.js scene, camera, renderer, circle texture, resize handling and the draw call. These are UI and foreign library calls.
- Scheduling: `requestAnimationFrame` and `cancelAnimationFrame`. One tick is one call of `App.Update` or `Visualizer.ParticleSystem.Frame`.
- The mount sequence: `initParticles`, then `animate(0)` inside the same set-up effect, then the reconfiguration effect's first run with fresh draws (it regenerates the targets and keeps the positions, since the count is unchanged). Each step is modelled, but not their composition.
- I/O: camera acquisition with `getUserMedia`, the `localStorage` onboarding flag, analytics and the feedback network insert.
- MediaPipe: model loading and `detectForVideo` are parameters. The asynchronous interleaving of two `initialize` calls is only captured by the split into `BeginInitialize` and `FinishInitialize`, whose guards keep `isInitializing` implying that no landmarker exists.
- Logging: the `console.debug` and `console.error` messages of `initialize` are output only and are not modelled.
- Handedness: only the first category's name of each entry is modelled, as `Left` or `Right`.
- Numbers: `real` replaces Float32 and double arithmetic, with no rounding. `PI` is the literal value of `Math.PI`.
- Trigonometry: `sin`, `cos`, `acos` and `sqrt` are supplied functions with only their ranges known, so exact identities are not modelled (a sphere point lying exactly at radius 25, for example).
- Colour: `Visualizer.ColorOf` records the hue, saturation and lightness passed to `setHSL`. THREE's wrapping and clamping of those values is not modelled.
- Visualizer.ExpansionStaysInRange: is stated for one frame and takes the gesture's range as a precondition. The contract of `App.Interpret` supplies that range for every interpreted state.
- App.Update: models the callback only on results whose landmark lists all hold 21 landmarks. A shorter list makes the source throw while building the hands.
- HandDetection.HandDetectionService.Detect: returns the detector's result as given. `detectForVideo`'s own failures and empty results are the detector's business.
