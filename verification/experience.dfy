/** The camera controller: each frame, keyed on the gesture and on whether a
    hand is present, it either pulls the orbit camera back to the neutral
    distance or steers it from the hand's smoothed position, and it turns
    the orbit controls' auto-rotation on or off. */
module Experience {
  import opened Types
  import opened MathUtils
  import opened HandTracker

  /** The part of the orbit controls the controller writes: the auto-rotate
      flag, the azimuthal angle and the camera's distance from the target. */
  datatype Orbit = Orbit(autoRotate: bool, azimuth: real, distance: real)

  /** The smoothed azimuth and distance the controller keeps between frames. */
  datatype Smooth = Smooth(azimuth: real, distance: real)

  datatype Camera = Camera(controls: Orbit, smooth: Smooth)

  const NeutralDistance: real := 20.0
  const NearDistance: real := 12.0
  const FarDistance: real := 35.0

  /** The azimuth the hand's x asks for: 0 at the centre of the frame,
      from -2 to 2 radians across it. */
  function TargetAzimuth(x: real): (a: real)
    ensures 0.0 <= x <= 1.0 ==> -2.0 <= a <= 2.0
    ensures x == 0.5 ==> a == 0.0
  {
    (x - 0.5) * 4.0
  }

  /** The hand's depth proxy mapped onto [0, 1]: 0 up to z = 0.1, 1 from z = 0.4. */
  function ZoomFactor(z: real): (f: real)
    ensures 0.0 <= f <= 1.0
    ensures z <= 0.1 ==> f == 0.0
    ensures z >= 0.4 ==> f == 1.0
  {
    Clamp((z - 0.1) / 0.3, 0.0, 1.0)
  }

  /** The distance the hand asks for: far (35) for a distant hand, near (12)
      for a close one. */
  function TargetDistance(z: real): (d: real)
    ensures NearDistance <= d <= FarDistance
    ensures z <= 0.1 ==> d == FarDistance
    ensures z >= 0.4 ==> d == NearDistance
  {
    var f := ZoomFactor(z);
    assert 23.0 * f <= 23.0;
    Lerp(35.0, 12.0, f)
  }

  /** Bringing the hand closer never moves the camera's target farther away. */
  lemma TargetDistanceMonotone(z1: real, z2: real)
    requires z1 <= z2
    ensures TargetDistance(z1) >= TargetDistance(z2)
  {
    var f1, f2 := ZoomFactor(z1), ZoomFactor(z2);
    assert (z1 - 0.1) / 0.3 <= (z2 - 0.1) / 0.3;
    assert f1 <= f2;
    assert TargetDistance(z1) == 35.0 - 23.0 * f1;
    assert TargetDistance(z2) == 35.0 - 23.0 * f2;
  }

  /** Outside the interacting branch the camera drifts back to the neutral
      distance, but only while it is more than 0.1 away from it. */
  function ReturnToNeutral(distance: real, factor: real): real
  {
    if Abs(distance - NeutralDistance) > 0.1 then Lerp(distance, NeutralDistance, factor) else distance
  }

  /** The drift leaves a distance within 0.1 of neutral alone and, with a
      factor in [0, 1], never moves the camera farther from neutral nor past it. */
  lemma ReturnToNeutralCloser(distance: real, factor: real)
    requires 0.0 <= factor <= 1.0
    ensures Abs(distance - NeutralDistance) <= 0.1 ==> ReturnToNeutral(distance, factor) == distance
    ensures Between(ReturnToNeutral(distance, factor), distance, NeutralDistance)
    ensures Abs(ReturnToNeutral(distance, factor) - NeutralDistance) <= Abs(distance - NeutralDistance)
  {
    ApproachBetween(distance, NeutralDistance, factor);
  }

  /** The controller steers the camera exactly when the hand is closed and present. */
  predicate Interacting(g: Gesture, sample: HandSample)
  {
    g == Closed && sample.present
  }

  /** One frame of the controller, as a function of the state before it. */
  function CameraStep(c: Camera, g: Gesture, sample: HandSample, delta: real): Camera
  {
    if g == Pinch then
      Camera(c.controls.(autoRotate := false, distance := ReturnToNeutral(c.controls.distance, delta * 2.0)), c.smooth)
    else if Interacting(g, sample) then
      var azimuth := Approach(c.smooth.azimuth, TargetAzimuth(sample.x), delta * 5.0);
      var distance := Approach(c.smooth.distance, TargetDistance(sample.z), delta * 5.0);
      Camera(Orbit(false, azimuth, distance), Smooth(azimuth, distance))
    else
      Camera(c.controls.(autoRotate := g == Closed, distance := ReturnToNeutral(c.controls.distance, delta * 0.5)), c.smooth)
  }

  /** The orbit controls' update runs on every frame except while pinching. */
  function UpdateCalled(g: Gesture): bool
  {
    g != Pinch
  }

  /** While pinching: no auto-rotation, the azimuth and the smoothed pair
      untouched, and the distance drifts to neutral at rate 2. */
  lemma PinchFreezes(c: Camera, sample: HandSample, delta: real)
    ensures var next := CameraStep(c, Pinch, sample, delta);
      && !next.controls.autoRotate
      && next.controls.azimuth == c.controls.azimuth
      && next.smooth == c.smooth
      && next.controls.distance == ReturnToNeutral(c.controls.distance, delta * 2.0)
      && !UpdateCalled(Pinch)
  {
  }

  /** While interacting: the smoothed pair moves toward the hand's targets by
      delta * 5, the camera is set to it, and auto-rotation is off. */
  lemma InteractingSteers(c: Camera, sample: HandSample, delta: real)
    requires Interacting(Closed, sample)
    ensures var next := CameraStep(c, Closed, sample, delta);
      && !next.controls.autoRotate
      && TargetAzimuth(sample.x) - next.smooth.azimuth == (TargetAzimuth(sample.x) - c.smooth.azimuth) * (1.0 - delta * 5.0)
      && TargetDistance(sample.z) - next.smooth.distance == (TargetDistance(sample.z) - c.smooth.distance) * (1.0 - delta * 5.0)
      && next.controls.azimuth == next.smooth.azimuth
      && next.controls.distance == next.smooth.distance
  {
  }

  /** Auto-rotation is on after a frame exactly when the hand is closed but
      absent: an open hand turns it off. */
  lemma AutoRotateExactly(c: Camera, g: Gesture, sample: HandSample, delta: real)
    ensures CameraStep(c, g, sample, delta).controls.autoRotate <==> g == Closed && !sample.present
    ensures g == Open ==> !CameraStep(c, g, sample, delta).controls.autoRotate
  {
  }

  /** Outside the pinch and the interacting branch, the smoothed pair and the
      azimuth are untouched and the distance drifts to neutral at rate 0.5. */
  lemma IdleDrifts(c: Camera, g: Gesture, sample: HandSample, delta: real)
    requires g != Pinch && !Interacting(g, sample)
    ensures var next := CameraStep(c, g, sample, delta);
      && next.smooth == c.smooth
      && next.controls.azimuth == c.controls.azimuth
      && next.controls.distance == ReturnToNeutral(c.controls.distance, delta * 0.5)
  {
  }

  /** The smoothed pair changes only while interacting. */
  lemma SmoothChangesOnlyWhenInteracting(c: Camera, g: Gesture, sample: HandSample, delta: real)
    requires CameraStep(c, g, sample, delta).smooth != c.smooth
    ensures Interacting(g, sample)
  {
  }

  /** With a per-frame factor delta * 5 in [0, 1], a smoothed distance within
      [12, 35] stays there, whatever the gesture and the hand. */
  lemma SmoothDistanceInRange(c: Camera, g: Gesture, sample: HandSample, delta: real)
    requires 0.0 <= delta * 5.0 <= 1.0
    requires NearDistance <= c.smooth.distance <= FarDistance
    ensures NearDistance <= CameraStep(c, g, sample, delta).smooth.distance <= FarDistance
  {
    if g != Pinch && Interacting(g, sample) {
      ApproachBetween(c.smooth.distance, TargetDistance(sample.z), delta * 5.0);
    }
  }

  /** The smoothing update as written, `s += (target - s) * delta * 5`, is
      the damped step with factor delta * 5. */
  lemma SmoothedStep(s: real, target: real, delta: real)
    ensures s + (target - s) * delta * 5.0 == Approach(s, target, delta * 5.0)
  {
  }

  /** The controller: the orbit controls it drives and its smoothed pair. */
  class CameraController {
    var controls: Orbit
    var smooth: Smooth

    function State(): Camera
      reads this
    {
      Camera(controls, smooth)
    }

    /** The smoothed pair starts at azimuth 0 and the neutral distance 20. */
    constructor (initial: Orbit)
      ensures controls == initial
      ensures smooth == Smooth(0.0, NeutralDistance)
    {
      controls := initial;
      smooth := Smooth(0.0, 20.0);
    }

    /** One frame, reading the hand sample from the shared signal; reports
        whether the orbit controls' update is reached. */
    method Frame(signal: TrackingSignal, gesture: Gesture, delta: real) returns (updated: bool)
      modifies this
      ensures State() == CameraStep(old(State()), gesture, signal.current, delta)
      ensures updated == UpdateCalled(gesture)
    {
      ghost var before := State();
      if gesture == Pinch {
        controls := controls.(autoRotate := false);
        var targetDist := 20.0;
        var currentDist := controls.distance;
        if Abs(currentDist - targetDist) > 0.1 {
          controls := controls.(distance := Lerp(currentDist, targetDist, delta * 2.0));
        }
        assert controls.distance == ReturnToNeutral(before.controls.distance, delta * 2.0);
        return false;
      }

      var isInteracting := gesture == Closed && signal.current.present;

      if isInteracting {
        var x, z := signal.current.x, signal.current.z;
        var targetAzimuth := (x - 0.5) * 4.0;
        var zoomFactor := Clamp((z - 0.1) / 0.3, 0.0, 1.0);
        var targetDistance := Lerp(35.0, 12.0, zoomFactor);
        assert targetAzimuth == TargetAzimuth(x) && targetDistance == TargetDistance(z);

        SmoothedStep(smooth.azimuth, targetAzimuth, delta);
        SmoothedStep(smooth.distance, targetDistance, delta);
        smooth := smooth.(azimuth := smooth.azimuth + (targetAzimuth - smooth.azimuth) * delta * 5.0);
        smooth := smooth.(distance := smooth.distance + (targetDistance - smooth.distance) * delta * 5.0);

        assert smooth.azimuth == Approach(before.smooth.azimuth, TargetAzimuth(x), delta * 5.0);
        assert smooth.distance == Approach(before.smooth.distance, TargetDistance(z), delta * 5.0);
        controls := controls.(azimuth := smooth.azimuth);
        controls := controls.(distance := smooth.distance);

        controls := controls.(autoRotate := false);
        assert State() == CameraStep(before, gesture, signal.current, delta);
      } else {
        controls := controls.(autoRotate := gesture == Closed);
        var targetDistance := 20.0;
        var currentDist := controls.distance;
        if Abs(currentDist - targetDistance) > 0.1 {
          controls := controls.(distance := Lerp(currentDist, targetDistance, delta * 0.5));
        }
        assert controls.distance == ReturnToNeutral(before.controls.distance, delta * 0.5);
        assert State() == CameraStep(before, gesture, signal.current, delta);
      }

      updated := true;
    }
  }
}
