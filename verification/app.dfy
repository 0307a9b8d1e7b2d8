/** The application state and its transitions. Every handler builds the next
    state from the previous one, copying all fields but the ones it names. */
module App {
  import opened Types
  import opened MathUtils
  import opened Constants
  import opened ParseInt

  /** Math.PI, to the digits JavaScript prints for it. */
  const Pi: real := 3.141592653589793

  /** The state the application starts in: camera not ready, no permission,
      a closed hand, loading, no error, the ice theme and no photos. */
  function InitialState(): AppState
  {
    AppState(false, false, Closed, true, None, Ice, [])
  }

  /** A gesture reported by the tracker. An equal gesture returns the previous
      state itself, so nothing re-renders; otherwise only the gesture changes. */
  function HandleGestureChange(prev: AppState, newGesture: Gesture): (next: AppState)
    ensures next.gesture == newGesture
    ensures prev.gesture == newGesture ==> next == prev
    ensures next.(gesture := prev.gesture) == prev
  {
    if prev.gesture == newGesture then prev else prev.(gesture := newGesture)
  }

  /** Reporting the same gesture twice has the effect of reporting it once. */
  lemma GestureChangeIdempotent(prev: AppState, g: Gesture)
    ensures HandleGestureChange(HandleGestureChange(prev, g), g) == HandleGestureChange(prev, g)
  {
  }

  /** The manual cycle CLOSED -> PINCH -> OPEN -> CLOSED. */
  function NextGesture(g: Gesture): Gesture
  {
    if g == Closed then Pinch
    else if g == Pinch then Open
    else Closed
  }

  /** The cycle always moves, returns after three steps, and visits every gesture. */
  lemma GestureCycle(g: Gesture)
    ensures NextGesture(g) != g
    ensures NextGesture(NextGesture(g)) != g
    ensures NextGesture(NextGesture(NextGesture(g))) == g
    ensures {g, NextGesture(g), NextGesture(NextGesture(g))} == {Closed, Open, Pinch}
  {
  }

  /** The simulation toggle: the next gesture of the cycle, and the music
      flag set when it was off. Returns the new state and the new flag. */
  function ToggleGesture(prev: AppState, audioPlaying: bool): (r: (AppState, bool))
    ensures r.0.gesture != prev.gesture
    ensures r.0.(gesture := prev.gesture) == prev
    ensures r.1
  {
    var next := prev.(gesture := NextGesture(prev.gesture));
    (next, if !audioPlaying then true else audioPlaying)
  }

  /** Three toggles bring the state back to where it was. */
  lemma ToggleThrice(prev: AppState, audioPlaying: bool)
    ensures var s1 := ToggleGesture(prev, audioPlaying);
      var s2 := ToggleGesture(s1.0, s1.1);
      ToggleGesture(s2.0, s2.1).0 == prev
  {
    GestureCycle(prev.gesture);
  }

  /** The camera stream has started: ready, and no longer loading. */
  function HandleCameraReady(prev: AppState): (next: AppState)
    ensures next.isCameraReady && !next.loading
    ensures next.(isCameraReady := prev.isCameraReady, loading := prev.loading) == prev
  {
    prev.(isCameraReady := true, loading := false)
  }

  /** The user entered from the start screen: permission is granted, which
      switches hand tracking on, and the music starts. Returns the new state
      and the new music flag. */
  function HandlePermissionGranted(prev: AppState): (r: (AppState, bool))
    ensures r.0.permissionGranted && r.1
    ensures r.0.(permissionGranted := prev.permissionGranted) == prev
  {
    (prev.(permissionGranted := true), true)
  }

  /** The tracker failed: the message is recorded and loading stops. */
  function HandleError(prev: AppState, errorMsg: string): (next: AppState)
    ensures next.error == Some(errorMsg) && !next.loading
    ensures next.(error := prev.error, loading := prev.loading) == prev
  {
    prev.(error := Some(errorMsg), loading := false)
  }

  /** Where a photo lands on the tree spiral, from three draws of
      Math.random, the current time in milliseconds and the object URL. */
  function NewPhoto(url: string, now: nat, t: real, spin: real, roll: real,
                    cos: real -> real, sin: real -> real): UserPhoto
  {
    var height := t * 10.0 - 5.0;
    var radius := (1.0 - t) * 4.5 + 1.0;
    var angle := t * 20.0 + spin * Pi;
    var x := cos(angle) * radius;
    var z := sin(angle) * radius;
    UserPhoto(NatToString(now), url, Vec3(x, height, z), Vec3(0.0, -angle, roll * 0.2 - 0.1), 1.0)
  }

  /** The photo upload handler. `objectUrl` is the object URL of the first
      selected file, or None when no file was selected. */
  function HandlePhotoUpload(prev: AppState, objectUrl: Option<string>, now: nat, t: real, spin: real, roll: real,
                             cos: real -> real, sin: real -> real): (next: AppState)
    ensures objectUrl == None ==> next == prev
    ensures objectUrl.Some? ==>
      && |next.photos| == |prev.photos| + 1
      && next.photos[..|prev.photos|] == prev.photos
      && next.photos[|prev.photos|] == NewPhoto(objectUrl.value, now, t, spin, roll, cos, sin)
      && next.photos[|prev.photos|].url == objectUrl.value
      && next.(photos := prev.photos) == prev
  {
    match objectUrl
    case None => prev
    case Some(url) =>
      var newPhoto := NewPhoto(url, now, t, spin, roll, cos, sin);
      assert (prev.photos + [newPhoto])[..|prev.photos|] == prev.photos;
      prev.(photos := prev.photos + [newPhoto])
  }

  /** With random draws in [0, 1): the height lies in [-5, 5), the spiral
      radius in (1, 5.5] with x and z within it, the photo faces outwards
      (rotation [0, -angle, roll] with angle in [0, 20 + pi) and roll in
      [-0.1, 0.1)), its aspect ratio is 1, and its id is the decimal time. */
  lemma PlacementBounds(url: string, now: nat, t: real, spin: real, roll: real,
                        cos: real -> real, sin: real -> real)
    requires IsRandom(t) && IsRandom(spin) && IsRandom(roll)
    requires UnitBounded(cos) && UnitBounded(sin)
    ensures var p := NewPhoto(url, now, t, spin, roll, cos, sin);
      var radius := (1.0 - t) * 4.5 + 1.0;
      && -5.0 <= p.position.y < 5.0
      && 1.0 < radius <= 5.5
      && Abs(p.position.x) <= radius && Abs(p.position.z) <= radius
      && p.rotation.x == 0.0
      && 0.0 <= -p.rotation.y < 20.0 + Pi
      && -0.1 <= p.rotation.z < 0.1
      && p.aspectRatio == 1.0
      && p.id == NatToString(now) && p.url == url
  {
    var radius := (1.0 - t) * 4.5 + 1.0;
    var angle := t * 20.0 + spin * Pi;
    assert 0.0 <= spin * Pi < Pi;
    BoundedTimesRadius(cos(angle), radius);
    BoundedTimesRadius(sin(angle), radius);
  }

  lemma BoundedTimesRadius(c: real, radius: real)
    requires -1.0 <= c <= 1.0 && radius >= 0.0
    ensures Abs(c * radius) <= radius
  {
    assert -radius <= c * radius <= radius;
  }

  /** The panel of a photo uploaded at time `now` bobs with phase now mod 10000. */
  lemma UploadedPhotoPhase(url: string, now: nat, t: real, spin: real, roll: real,
                           cos: real -> real, sin: real -> real)
    ensures IdPhase(NewPhoto(url, now, t, spin, roll, cos, sin).id) == now % 10000
  {
    IdPhaseOfTimestamp(now);
  }

  /** The events the handlers above respond to, with the inputs each one reads. */
  datatype Event =
    | GestureChanged(gesture: Gesture)
    | Toggled
    | PhotoChosen(objectUrl: Option<string>, now: nat, t: real, spin: real, roll: real)
    | CameraReady
    | PermissionGranted
    | Failed(message: string)

  function Dispatch(s: AppState, e: Event, cos: real -> real, sin: real -> real): AppState
  {
    match e
    case GestureChanged(g) => HandleGestureChange(s, g)
    case Toggled => ToggleGesture(s, true).0
    case PhotoChosen(u, now, t, spin, roll) => HandlePhotoUpload(s, u, now, t, spin, roll, cos, sin)
    case CameraReady => HandleCameraReady(s)
    case PermissionGranted => HandlePermissionGranted(s).0
    case Failed(m) => HandleError(s, m)
  }

  function Run(s: AppState, events: seq<Event>, cos: real -> real, sin: real -> real): AppState
    decreases |events|
  {
    if events == [] then s else Run(Dispatch(s, events[0], cos, sin), events[1..], cos, sin)
  }

  /** Over any events, photos are only ever appended and the theme never
      changes; a granted permission, a ready camera, a recorded error and
      the end of loading are never taken back. */
  lemma {:induction false} RunInvariants(s: AppState, events: seq<Event>, cos: real -> real, sin: real -> real)
    ensures var r := Run(s, events, cos, sin);
      && s.photos <= r.photos
      && r.theme == s.theme
      && (s.permissionGranted ==> r.permissionGranted)
      && (s.isCameraReady ==> r.isCameraReady)
      && (s.error.Some? ==> r.error.Some?)
      && (!s.loading ==> !r.loading)
    decreases |events|
  {
    if events != [] {
      var next := Dispatch(s, events[0], cos, sin);
      assert s.photos <= next.photos;
      RunInvariants(next, events[1..], cos, sin);
    }
  }

  /** From any loading state, the application stops loading exactly when the
      camera has become ready or an error has been reported. */
  lemma {:induction false} LoadingUntilReadyOrError(s: AppState, events: seq<Event>, cos: real -> real, sin: real -> real)
    requires s.loading
    ensures Run(s, events, cos, sin).loading <==> forall k :: 0 <= k < |events| ==> !events[k].CameraReady? && !events[k].Failed?
    decreases |events|
  {
    if events != [] {
      var next := Dispatch(s, events[0], cos, sin);
      if events[0].CameraReady? || events[0].Failed? {
        RunInvariants(next, events[1..], cos, sin);
      } else {
        LoadingUntilReadyOrError(next, events[1..], cos, sin);
        assert forall k :: 1 <= k < |events| ==> events[k] == events[1..][k - 1];
      }
    }
  }

  /** Permission, camera readiness and the error are each set by their own
      event and by no other: starting without one, the state has it after a
      sequence of events exactly when that event occurred in it. */
  lemma {:induction false} SetOnlyByItsEvent(s: AppState, events: seq<Event>, cos: real -> real, sin: real -> real)
    ensures var r := Run(s, events, cos, sin);
      && (!s.permissionGranted ==> (r.permissionGranted <==> exists k :: 0 <= k < |events| && events[k].PermissionGranted?))
      && (!s.isCameraReady ==> (r.isCameraReady <==> exists k :: 0 <= k < |events| && events[k].CameraReady?))
      && (s.error == None ==> (r.error == None <==> forall k :: 0 <= k < |events| ==> !events[k].Failed?))
    decreases |events|
  {
    if events != [] {
      var next := Dispatch(s, events[0], cos, sin);
      SetOnlyByItsEvent(next, events[1..], cos, sin);
      RunInvariants(next, events[1..], cos, sin);
      assert forall k :: 1 <= k < |events| ==> events[k] == events[1..][k - 1];
    }
  }

  /** From the initial state, after any events: the theme is still ice, the
      application is loading until the camera is ready or an error is
      reported, and tracking is permitted, the camera ready or an error
      recorded exactly when the corresponding event occurred. */
  lemma FromStart(events: seq<Event>, cos: real -> real, sin: real -> real)
    ensures var r := Run(InitialState(), events, cos, sin);
      && r.theme == Ice
      && (r.loading <==> forall k :: 0 <= k < |events| ==> !events[k].CameraReady? && !events[k].Failed?)
      && (r.permissionGranted <==> exists k :: 0 <= k < |events| && events[k].PermissionGranted?)
      && (r.isCameraReady <==> exists k :: 0 <= k < |events| && events[k].CameraReady?)
      && (r.error == None <==> forall k :: 0 <= k < |events| ==> !events[k].Failed?)
  {
    var s := InitialState();
    RunInvariants(s, events, cos, sin);
    LoadingUntilReadyOrError(s, events, cos, sin);
    SetOnlyByItsEvent(s, events, cos, sin);
  }
}
