# Grand Luxury Tree — the decision and animation core in Dafny

Grand Luxury Tree is a browser visualisation. A tree of 8000 glowing
particles, with the user's photos hanging on it, is steered by hand gestures
seen through the webcam. This project models the logic under the rendering
and proves properties of it:

- **Hand tracker** (`hand_tracker.dfy`). The results callback reads the 21
  landmarks of the first detected hand. It counts the extended fingers and the
  thumb with strict ratio tests and tests for a pinch. It classifies the hand
  as PINCH, OPEN or CLOSED, in that priority order, and writes the pointer
  sample into the shared last-value cell. The classifier compares squared
  planar distances. `ClassifyMatchesHypot` proves that this agrees with the
  source's `Math.hypot` comparisons for any function that behaves as hypot.
- **Particle field** (`lux_particles.dfy`). Initialisation fills four
  `array<real>` buffers of 8000 · 3 coordinates in one loop: the spiral-cone
  rest positions (twice), the colours and the explosion directions. Each frame
  rewrites the position buffer in place, stepping every coordinate toward a
  gesture-dependent target, and advances the group's y-rotation. Each method
  is proved against a function on sequences (`RestBuffer`, `FrameBuffer`, …).
- **Gallery** (`photo_gallery.dfy`). The selection loop finds the photo whose
  stored position is nearest the camera; the first one wins a tie. The
  gallery publishes the id only when it changes. Each photo panel chooses a
  target pose: in front of the camera while selected and pinched, otherwise
  its place on the tree. It then steps position, rotation and scale toward
  that target.
- **Camera controller** (`experience.dfy`). A three-way state machine keyed
  on the gesture and on hand presence. It drives the orbit controls' distance,
  azimuth and auto-rotate flag, and keeps a smoothed azimuth and distance
  pair.
- **Application state** (`app.dfy`). The functional state updaters of the
  root component: gesture changes with deduplication, the manual gesture
  cycle, photo upload with spiral placement, and permission, camera-ready
  and error updates. An event fold `Run` carries the invariants over any sequence of
  events.
- **Support**:
  - `types.dfy`: the records and `Number.prototype.toString` for the
    timestamps `Date.now()` returns.
  - `constants.dfy`: the constants and themes.
  - `math_utils.dfy`: the `lerp`/`clamp` helpers and lemmas about repeated
    damped steps.
  - `parse_int.dfy`: JavaScript's `parseInt`, as the gallery applies it to
    the last four characters of a photo id.

The modelling choices:
- All numbers are reals.
- `Math.sin`, `Math.cos` and `Math.hypot` are function parameters. The model
  knows only their bounds (|sin| ≤ 1, |cos| ≤ 1, hypot ≥ 0 and squaring to the
  sum of squares).
- `Math.random` draws are parameters in [0, 1).
- `Date.now()` is a natural-number parameter, and `URL.createObjectURL` is a
  string parameter.
- The three.js camera-relative pose of a pinched panel (`applyQuaternion`,
  `lookAt`) is an input, `viewPos` and `viewRot`.
- Clock time `t` and the frame `delta` are parameters.

Three behaviours of the code that the model keeps as written:

- **Unclamped damped steps.** Every damped step uses the factor
  `delta · rate` with no upper bound (components/LuxParticles.tsx:121,
  components/PhotoGallery.tsx:72-83, components/Experience.tsx:50-51). The
  factor can therefore exceed 1:
  - `MathUtils.UnclampedOvershoot` shows that a factor above 1 carries the
    value past its target;
  - a factor above 2 leaves it farther from the target than it was.
- **Auto-rotation with an open hand.** Outside the interacting branch the
  code sets auto-rotation to `gesture === CLOSED`, so an open hand turns it
  off. `Experience.AutoRotateExactly` states this.
- **Coincident landmarks.** The classifier divides by nothing. On a hand
  whose landmarks all coincide, its strict `>` tests make every finger
  non-extended (`HandTracker.CoincidentHand`).

## Model

| member | source | states |
|---|---|---|
| HandTracker.PlanarDistSq | components/HandTracker.tsx:138 | The squared planar distance standing in for `Math.hypot`: never negative, and 0 for points that share x and y. |
| HandTracker.FingersExtendedAmong | components/HandTracker.tsx:133-141 | Among the first k non-thumb fingers, at most k are extended. |
| HandTracker.ExtendedCount | components/HandTracker.tsx:132-149 | The count of extended fingers plus the thumb is between 0 and 5. |
| HandTracker.Classify | components/HandTracker.tsx:159-172 | PINCH exactly when pinching with at least 2 extended. OPEN exactly when not that and at least 4 extended. CLOSED exactly otherwise. |
| HandTracker.HypotTest | components/HandTracker.tsx:138 | For any hypot, `hypot(a−w) > hypot(b−w)·c` (c ≥ 0) holds exactly when the squared distances satisfy `d(a,w) > d(b,w)·c²`. |
| HandTracker.CountMatchesHypot | components/HandTracker.tsx:132-149 | The squared-distance count equals the source's count with hypot and the ratios 1.2 and 1.1. |
| HandTracker.PinchMatchesHypot | components/HandTracker.tsx:153-157 | The squared pinch test (< 0.0064) holds exactly when hypot(thumb tip − index tip) < 0.08. |
| HandTracker.ClassifyMatchesHypot | components/HandTracker.tsx:132-172 | The squared-distance classifier returns the same gesture as the source's hypot-based one, for every hand. |
| HandTracker.PinchOverridesOpen | components/HandTracker.tsx:162-168 | A pinching hand with 4 or more extended is PINCH, not OPEN. |
| HandTracker.CoincidentHand | components/HandTracker.tsx:133-172 | If all landmarks share one (x, y), nothing is extended and the pinch test holds, but the result is CLOSED. |
| HandTracker.PointerSample | components/HandTracker.tsx:177-189 | The sample is present. Its x mirrors the wrist x (so it stays in [0,1] when the wrist x does), and its y is the wrist y. Its z is 5·dist(index base, wrist): non-negative, with z² = 25·squared distance. |
| HandTracker.SamePlanarDistance | components/HandTracker.tsx:138 | Landmarks that agree in x and y have the same planar distance, whatever their z. |
| HandTracker.DepthIgnored | components/HandTracker.tsx:133-189 | Two hands that agree in every landmark's x and y get the same gesture and the same pointer sample: landmark z is never read. |
| HandTracker.CountExtended | components/HandTracker.tsx:132-149 | The counter loop (four finger tests, then the thumb test) ends with exactly ExtendedCount. |
| HandTracker.TrackingSignal.constructor | App.tsx:24-29 | The shared hand cell starts at (0.5, 0.5, 0.5) with present = false. |
| HandTracker.OnResults | components/HandTracker.tsx:123-198 | Exactly one gesture is reported per callback. With no hand, it is CLOSED and the cell keeps x, y, z with present = false. Otherwise it is the first hand's classification and the cell holds its pointer sample. |
| LuxParticles.RestBuffer | components/LuxParticles.tsx:17-18 | The rest-position buffer has PARTICLE_COUNT·3 entries. |
| LuxParticles.ColorBuffer | components/LuxParticles.tsx:19 | The colour buffer has PARTICLE_COUNT·3 entries. |
| LuxParticles.DirectionBuffer | components/LuxParticles.tsx:20 | The direction buffer has PARTICLE_COUNT·3 entries. |
| LuxParticles.BuffersAt | components/LuxParticles.tsx:43-61 | Particle i's x, y, z sit at indices 3i, 3i+1, 3i+2 of each buffer. |
| LuxParticles.SpiralShape | components/LuxParticles.tsx:28-41 | With p = i/N, the pre-jitter height p·12 − 6 is in [−6, 6) and non-decreasing in i. The radius (1−p)·5 is in (0, 5], and each jitter is in [−0.25, 0.25). |
| LuxParticles.RestPointNearCone | components/LuxParticles.tsx:35-41 | A rest point's height is within 0.25 of the cone height, and its x and z are within radius + 0.25 of the axis. |
| LuxParticles.DirectionBounded | components/LuxParticles.tsx:59-61 | Every explosion-direction component lies in [−1, 1). |
| LuxParticles.MixFactorRange | components/LuxParticles.tsx:53 | The colour mix factor `random·p + 0.2` lies in [0.2, 1.2). |
| LuxParticles.TargetNearRest | components/LuxParticles.tsx:107-117 | Outside OPEN, every target coordinate is within 0.05 of the rest coordinate. |
| LuxParticles.TargetNearGalaxy | components/LuxParticles.tsx:97-106 | In OPEN, every target coordinate is within 2 of the direction scaled by (25, 12.5, 25). |
| LuxParticles.FrameBuffer | components/LuxParticles.tsx:84-127 | A frame keeps the buffer's length. |
| LuxParticles.TargetsOf | components/LuxParticles.tsx:97-117 | The targets of particle i's three coordinates are the branch formulas of the loop body, with the particle index i in the trigonometric phase. |
| LuxParticles.FrozenFrame | components/LuxParticles.tsx:121-124 | A frame with delta = 0 leaves every position unchanged. |
| LuxParticles.FrameStaysBetween | components/LuxParticles.tsx:121-124 | If delta·damping is in [0, 1], every new coordinate lies between its old value and its target. |
| LuxParticles.ParticleField.constructor | components/LuxParticles.tsx:16-70 | A new field's four buffers hold the spiral (twice), colours and directions, and the rotation is 0. |
| LuxParticles.ParticleField.Rebuild | components/LuxParticles.tsx:16-70 | A theme change regenerates all four buffers as fresh arrays and keeps the rotation. |
| LuxParticles.ParticleField.Frame | components/LuxParticles.tsx:72-137 | The position buffer becomes FrameBuffer of the old one: every coordinate takes one damped step by delta·Damping (2 in OPEN, 4 otherwise), exactly once. The rest and direction buffers and the lengths are unchanged. The frame's own OPEN branch grows rotation.y by delta·SpinRate (0.05 in OPEN, 0.1 otherwise). |
| LuxParticles.StepExtends | components/LuxParticles.tsx:85-126 | Writing particle i's three damped coordinates extends the prefix on which the buffer equals FrameBuffer from 3i to 3i + 3 entries; the rest still holds the old values. |
| LuxParticles.ParticleField.StepParticle | components/LuxParticles.tsx:77-126 | One loop pass writes particle i's three coordinates at 3i..3i+2, each stepped toward its Target with the factor delta·Damping that its own `isExploding ? 2 : 4` branch computes, and changes nothing else. |
| LuxParticles.Build | components/LuxParticles.tsx:16-69 | The initialiser returns four fresh arrays of length PARTICLE_COUNT·3, with `pos` distinct from the other three. `pos` equals `originalPos` element-wise (both are RestBuffer), and the colour and direction buffers are ColorBuffer and DirectionBuffer. |
| LuxParticles.FillParticle | components/LuxParticles.tsx:25-62 | One pass of the fill loop writes particle i's spiral point, colour and direction at 3i..3i+2 of the four buffers and nothing else. |
| LuxParticles.FillPoint | components/LuxParticles.tsx:28-49 | The pass writes the spiral point, from the draws in the source's order, into both position buffers. |
| LuxParticles.FillColor | components/LuxParticles.tsx:51-56 | The pass writes the secondary→primary mix of particle i into the colour buffer. |
| LuxParticles.FillDirection | components/LuxParticles.tsx:58-61 | The pass writes the three `(random − 0.5)·2` components into the direction buffer. |
| MathUtils.Approach | components/LuxParticles.tsx:120-124 | After one step the distance to the target is scaled by (1 − factor). Factor 0 stays put; factor 1 lands on the target. |
| MathUtils.ApproachBetween | components/LuxParticles.tsx:121-124 | A factor in [0, 1] leaves the value between where it was and its target. |
| MathUtils.Lerp | components/PhotoGallery.tsx:76-82 | `THREE.MathUtils.lerp(x, y, t)` in exact arithmetic is the same step as `x + (y − x)·t`. |
| MathUtils.Clamp | components/Experience.tsx:47 | The result lies in [lo, hi]. It is v when v is inside, and the violated bound otherwise. |
| MathUtils.ApproachAllError | components/LuxParticles.tsx:121-124 | After any number of frames toward a fixed target, the remaining error is the initial error times the product of (1 − factor). |
| MathUtils.RemainingBounded | components/LuxParticles.tsx:121-124 | With every factor in [0, 1], the share of error remaining is in [0, 1]. |
| MathUtils.ApproachAllConverges | components/LuxParticles.tsx:121-124 | Frames with factors in [0, 1] never move a value farther from a fixed target, and a value on its target stays there. |
| MathUtils.UnclampedOvershoot | components/LuxParticles.tsx:121 | A factor above 1 carries the value past its target, and above 2 farther from it than before. |
| Types.DigitChar | App.tsx:68 | The character of a decimal digit d is '0' + d. |
| Types.NatToString | App.tsx:68 | The decimal form of a timestamp (below 2^53) is non-empty and all digits, and it has one digit exactly when the number is below 10. |
| ParseInt.TrimStart | components/PhotoGallery.tsx:62 | Skipping leading white space yields a suffix that is empty or starts with a non-space. |
| ParseInt.DigitValue | components/PhotoGallery.tsx:62 | Digit values are at most 36, and '0'..'9' have their decimal value. |
| ParseInt.DigitRun | components/PhotoGallery.tsx:62 | The digit run is the longest prefix made only of digits. |
| ParseInt.LastFour | components/PhotoGallery.tsx:62 | `slice(-4)` gives the last min(4, length) characters. |
| ParseInt.DecimalRun | components/PhotoGallery.tsx:62 | In a string of decimal digits the digit run is the whole string. |
| ParseInt.UnsignedDecimal | components/PhotoGallery.tsx:62 | A non-empty decimal string, read after the sign, is its value in radix 10: no hex prefix applies. |
| ParseInt.ParseDecimal | components/PhotoGallery.tsx:62 | A non-empty string of decimal digits parses as the number it spells. |
| ParseInt.SuffixValue | components/PhotoGallery.tsx:62 | The last m digits of n's decimal form denote n mod 10^m. |
| ParseInt.NatToStringBound | App.tsx:68 | n is below 10 to the number of its decimal digits. |
| ParseInt.IdPhaseOfTimestamp | components/PhotoGallery.tsx:62 | For an id made by `Date.now().toString()`, the idle phase `parseInt(id.slice(-4)) \|\| 0` is the time mod 10000. |
| ParseInt.TimestampTail | components/PhotoGallery.tsx:62 | The last four characters of a timestamp parse as its value modulo 10 to their length. |
| ParseInt.TailModulus | components/PhotoGallery.tsx:62 | Fewer than four digits are taken only when the timestamp is below that power of 10, so the modulus is 10000 in effect. |
| ParseInt.IdPhaseRange | components/PhotoGallery.tsx:62 | For every id, the phase lies in [−999, 9999]. |
| ParseInt.ParseBound | components/PhotoGallery.tsx:62 | Any string of at most four characters that parses gives a value in [−999, 9999]. |
| ParseInt.UnsignedBound | components/PhotoGallery.tsx:62 | At most four characters after the sign parse to a number below 10^length, hex prefix included. |
| ParseInt.ValueBound | components/PhotoGallery.tsx:62 | m digits in a radix denote a number below radix^m. |
| PhotoGallery.DistSq | components/PhotoGallery.tsx:145-148 | The squared camera distance is non-negative. |
| PhotoGallery.FirstNearestUnique | components/PhotoGallery.tsx:144-154 | At most one index is the first nearest, so the selection is determined by the photos and the camera. |
| PhotoGallery.NearestStep | components/PhotoGallery.tsx:150-153 | A photo replaces the best so far exactly when it is the first or strictly nearer; otherwise the best stays first nearest. |
| PhotoGallery.FindNearest | components/PhotoGallery.tsx:139-154 | The loop yields no id exactly for an empty list. Otherwise it yields the id of a photo at minimal squared distance from the stored positions, the earliest among ties. |
| PhotoGallery.Gallery.constructor | components/PhotoGallery.tsx:134 | No photo is selected at first. |
| PhotoGallery.Gallery.Frame | components/PhotoGallery.tsx:136-159 | An empty list changes nothing. Otherwise the nearest id becomes the first-nearest photo's id, and it is published exactly when it differs from the old one. |
| PhotoGallery.PanelTargetChoice | components/PhotoGallery.tsx:24-67 | Selected and pinched: scale 2.5, the camera-relative position, the facing rotation with roll within 0.02. Otherwise, whatever the phase: scale 1, the stored x and z, height within 0.003 of the stored one, the stored rotation x and y, roll within 0.001. |
| PhotoGallery.SelectedIsFirstNearest | components/PhotoGallery.tsx:163-168 | With distinct ids, the panel of photo k is selected by the gallery's choice of photo j exactly when k = j, that is, exactly when photo k is the first nearest. |
| PhotoGallery.PanelFrozen | components/PhotoGallery.tsx:70-83 | A frame with delta = 0 leaves position, rotation and scale unchanged. |
| PhotoGallery.PanelArrives | components/PhotoGallery.tsx:70-83 | With factor 1 the panel lands exactly on its target pose. |
| PhotoGallery.PanelBetween | components/PhotoGallery.tsx:70-83 | With factor in [0, 1], every position, rotation and scale coordinate lies between its old value and its target. |
| PhotoGallery.PopIn | components/PhotoGallery.tsx:19 | From scale 0 toward the idle scale 1, the first frame's scale is exactly the factor. |
| PhotoGallery.Panel.constructor | components/PhotoGallery.tsx:12-19 | A new panel stands at its stored pose with scale 0 on every axis. Its targets are the stored pose and 0. Its bobbing phase is IdPhase of the photo's id. |
| PhotoGallery.Panel.Frame | components/PhotoGallery.tsx:21-84 | The targets become PanelTarget with the panel's phase. Position, each rotation axis and scale take one step by the same unclamped factor delta·3, and the scale stays uniform. |
| PhotoGallery.Panel.StepTowardTarget | components/PhotoGallery.tsx:70-83 | The pose becomes PanelStep of the old pose toward the stored targets, which are unchanged, and the scale is uniform. |
| Experience.TargetAzimuth | components/Experience.tsx:46 | The target azimuth is in [−2, 2] for x in [0, 1], and 0 at the centre. |
| Experience.ZoomFactor | components/Experience.tsx:47 | The zoom factor lies in [0, 1]: 0 up to z = 0.1 and 1 from z = 0.4. |
| Experience.TargetDistance | components/Experience.tsx:48 | The target distance lies in [12, 35]: 35 for a far hand and 12 for a near one. |
| Experience.TargetDistanceMonotone | components/Experience.tsx:47-48 | A larger hand-size z never gives a larger target distance. |
| Experience.ReturnToNeutralCloser | components/Experience.tsx:31-37 | A distance within 0.1 of 20 is left alone. With a factor in [0, 1] the distance moves between itself and 20, never farther from 20. |
| Experience.PinchFreezes | components/Experience.tsx:28-39 | In PINCH, auto-rotation is off, the azimuth and the smoothed pair are untouched, the distance drifts to 20 at rate 2, and `update()` is not reached. |
| Experience.InteractingSteers | components/Experience.tsx:41-56 | While interacting, the smoothed pair's error to the hand targets shrinks by (1 − 5·delta). The camera takes the smoothed values, and auto-rotation is off. |
| Experience.AutoRotateExactly | components/Experience.tsx:28-58 | After a frame, auto-rotation is on exactly when the gesture is CLOSED and no hand is present, so OPEN turns it off. |
| Experience.IdleDrifts | components/Experience.tsx:57-65 | Outside PINCH and interaction, the smoothed pair and the azimuth are untouched and the distance drifts to 20 at rate 0.5. |
| Experience.SmoothChangesOnlyWhenInteracting | components/Experience.tsx:50-51 | The smoothed pair changes only when the gesture is CLOSED and the hand is present. |
| Experience.SmoothDistanceInRange | components/Experience.tsx:48-51 | With 5·delta in [0, 1], a smoothed distance in [12, 35] stays there, whatever the gesture and the hand. |
| Experience.SmoothedStep | components/Experience.tsx:50-51 | The in-place update `s += (target − s)·delta·5` is the damped step with factor 5·delta. |
| Experience.CameraController.constructor | components/Experience.tsx:22 | The smoothed pair starts at azimuth 0, distance 20. |
| Experience.CameraController.Frame | components/Experience.tsx:24-67 | The new controls and smoothed pair are CameraStep of the old ones. `update()` is reached exactly when not pinching. |
| App.HandleGestureChange | App.tsx:31-36 | The gesture becomes the reported one. An equal gesture returns the previous state itself, and no other field changes. |
| App.GestureChangeIdempotent | App.tsx:31-36 | Reporting the same gesture twice has the effect of reporting it once. |
| App.GestureCycle | App.tsx:84-87 | The cycle CLOSED→PINCH→OPEN→CLOSED always moves, visits all three gestures and returns after three steps. |
| App.ToggleGesture | App.tsx:82-93 | The toggle always changes the gesture and nothing else, and the music flag is on afterwards. |
| App.ToggleThrice | App.tsx:82-90 | Three toggles return the state to where it started. |
| App.HandleCameraReady | App.tsx:38-40 | The camera becomes ready and loading stops; nothing else changes. |
| App.HandlePermissionGranted | App.tsx:42-45 | Permission becomes granted and the music flag on; nothing else changes. |
| App.HandleError | App.tsx:47-49 | The error message is recorded and loading stops; nothing else changes. |
| App.HandlePhotoUpload | App.tsx:52-80 | Without a file the state is unchanged. With one, exactly one photo is appended: NewPhoto of the file's URL, the time and the draws, so PlacementBounds and UploadedPhotoPhase apply to it. Earlier photos keep their order, and nothing else changes. |
| App.PlacementBounds | App.tsx:59-72 | For draws in [0, 1): height in [−5, 5), radius in (1, 5.5] with x and z within it, rotation [0, −angle, roll] with angle in [0, 20 + π) and roll in [−0.1, 0.1), aspect ratio 1, id the decimal time. |
| App.UploadedPhotoPhase | App.tsx:68 | An uploaded photo's panel bobs with phase (upload time mod 10000). |
| App.RunInvariants | App.tsx:31-93 | Over any sequence of events, photos are only appended and the theme never changes. A granted permission, a ready camera and a recorded error are never taken back, and loading never restarts. |
| App.LoadingUntilReadyOrError | App.tsx:38-49 | From a loading state, the application is still loading after a sequence of events exactly when none of them was a camera-ready or an error. |
| App.SetOnlyByItsEvent | App.tsx:38-49 | Starting without it, the state has permission, a ready camera or an error after a sequence of events exactly when the sequence holds a permission, camera-ready or error event respectively. |
| App.FromStart | App.tsx:10-18 | From the initial state, after any events: the theme is still ice, loading lasts until a camera-ready or error event, and permission, readiness and an error are present exactly when their events occurred. |

## Left out

- components/UIOverlay.tsx and components/AudioPlayer.tsx: display chrome and audio playback side effects.
- `initMediaPipe`, `processVideo` and the teardown in components/HandTracker.tsx: camera stream, landmark model, animation-frame scheduling and async I/O. A null `multiHandLandmarks` is modelled as an empty list.
- The camera-relative pose of a pinched panel (`applyQuaternion`, `Object3D.lookAt`): three.js quaternion code; its result is the `viewPos`/`viewRot` input.
- OrbitControls internals: `update()`, its [10, 40] distance clamp, damping and auto-rotate motion. `setAzimuthalAngle` and `setLength` are modelled as writes of the azimuth and distance fields, and the current distance is read back from the same field.
- Colour parsing and `THREE.Color` management: theme colours enter the particle model as already-decoded RGB triples.
- Texture loading, lights, post-processing and the `Canvas` scene.
- Floating point: Float32 buffer rounding, double rounding, NaN and infinities. Every number is an exact real, and `Math.PI` is the 16-digit decimal JavaScript prints for it.
- React scheduling, hooks, re-render timing and the concurrency between the tracker callback and the render loop.
- The `if (!ref.current) return` guards at the top of the frame callbacks: the model assumes the mounted objects exist.
- `toggleMute` in App.tsx: a one-flag update of the audio state, outside the application state.
- Types.NatToString: only the plain decimal form; the exponential form JavaScript prints from 10^21 and the inexact integers above 2^53 are not modelled, as `Date.now()` values are far below both.
- ParseInt.IsSpace: only the ASCII white space and line terminators that `parseInt` skips; the non-ASCII Unicode spaces are not modelled.
- MathUtils.Lerp: equal to the step `x + (y − x)·t` only in exact arithmetic; the floating-point difference between the two formulas is not modelled.
- LuxParticles.ParticleField.Frame: the rotation is an unbounded real, with no wrap-around of the angle.
