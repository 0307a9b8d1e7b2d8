/** The photo gallery: each frame it picks the photo nearest to the camera
    and publishes its id when it changes; each photo panel steps its pose
    toward a target that depends on whether it is that photo while the hand
    pinches. */
module PhotoGallery {
  import opened Types
  import opened MathUtils
  import opened ParseInt

  /** Squared distance from a photo's stored position to the camera. */
  function DistSq(p: Vec3, cam: Vec3): (d: real)
    ensures d >= 0.0
  {
    var dx, dy, dz := p.x - cam.x, p.y - cam.y, p.z - cam.z;
    SquareNonNegative(dx);
    SquareNonNegative(dy);
    SquareNonNegative(dz);
    dx * dx + dy * dy + dz * dz
  }

  lemma SquareNonNegative(a: real)
    ensures a * a >= 0.0
  {
    if a < 0.0 {
      var b := -a;
      assert a * a == b * b;
    }
  }

  /** Photo k is the nearest of the first n photos and the first one at its
      distance: every earlier photo is strictly farther, no later one nearer. */
  ghost predicate NearestAmong(photos: seq<UserPhoto>, cam: Vec3, k: nat, n: nat)
  {
    && k < n <= |photos|
    && (forall j :: 0 <= j < k ==> DistSq(photos[j].position, cam) > DistSq(photos[k].position, cam))
    && (forall j :: k < j < n ==> DistSq(photos[j].position, cam) >= DistSq(photos[k].position, cam))
  }

  ghost predicate IsFirstNearest(photos: seq<UserPhoto>, cam: Vec3, k: nat)
  {
    NearestAmong(photos, cam, k, |photos|)
  }

  /** The first nearest photo is unique: the selection is a function of the
      photo list and the camera position. */
  lemma FirstNearestUnique(photos: seq<UserPhoto>, cam: Vec3, j: nat, k: nat)
    requires IsFirstNearest(photos, cam, j)
    requires k < |photos| && k != j
    ensures !IsFirstNearest(photos, cam, k)
  {
    if j < k {
      assert DistSq(photos[k].position, cam) >= DistSq(photos[j].position, cam);
    } else {
      assert DistSq(photos[k].position, cam) > DistSq(photos[j].position, cam);
    }
  }

  /** The selection loop: scan the photos in order and keep the first one
      whose squared distance is strictly below the best so far (which starts
      at infinity, here None). */
  method FindNearest(photos: seq<UserPhoto>, cam: Vec3) returns (closestId: Option<string>)
    ensures photos == [] <==> closestId == None
    ensures photos != [] ==> exists k: nat :: IsFirstNearest(photos, cam, k) && closestId == Some(photos[k].id)
  {
    var minDistanceSq: Option<real> := None;
    closestId := None;
    ghost var best := 0;
    for i := 0 to |photos|
      invariant i == 0 ==> closestId == None && minDistanceSq == None
      invariant i > 0 ==> && NearestAmong(photos, cam, best, i)
                          && minDistanceSq == Some(DistSq(photos[best].position, cam))
                          && closestId == Some(photos[best].id)
    {
      var p := photos[i].position;
      var dx := p.x - cam.x;
      var dy := p.y - cam.y;
      var dz := p.z - cam.z;
      var distSq := dx * dx + dy * dy + dz * dz;
      assert distSq == DistSq(p, cam);
      NearestStep(photos, cam, best, i);
      if minDistanceSq == None || distSq < minDistanceSq.value {
        minDistanceSq := Some(distSq);
        closestId := Some(photos[i].id);
        best := i;
      }
    }
    if photos != [] {
      assert IsFirstNearest(photos, cam, best);
    }
  }

  /** One step of the scan: photo i becomes the best exactly when it is the
      first one or strictly nearer than the best so far. */
  lemma NearestStep(photos: seq<UserPhoto>, cam: Vec3, best: nat, i: nat)
    requires i < |photos|
    requires i > 0 ==> NearestAmong(photos, cam, best, i)
    ensures i == 0 || DistSq(photos[i].position, cam) < DistSq(photos[best].position, cam)
      ==> NearestAmong(photos, cam, i, i + 1)
    ensures i > 0 && DistSq(photos[i].position, cam) >= DistSq(photos[best].position, cam)
      ==> NearestAmong(photos, cam, best, i + 1)
  {
  }

  /** The gallery component's state: the id of the nearest photo, null at first. */
  class Gallery {
    var nearestId: Option<string>

    constructor ()
      ensures nearestId == None
    {
      nearestId := None;
    }

    /** One frame: with no photos nothing happens; otherwise the nearest id
        is computed and set only when it differs from the current one. */
    method Frame(photos: seq<UserPhoto>, cam: Vec3) returns (published: bool)
      modifies this
      ensures photos == [] ==> nearestId == old(nearestId)
      ensures photos != [] ==> exists k: nat :: IsFirstNearest(photos, cam, k) && nearestId == Some(photos[k].id)
      ensures published <==> nearestId != old(nearestId)
    {
      published := false;
      if photos == [] {
        return;
      }
      var closestId := FindNearest(photos, cam);
      if closestId != nearestId {
        nearestId := closestId;
        published := true;
      }
    }
  }

  /** Whether a panel is the selected one: its id equals the nearest id. */
  predicate IsSelected(photo: UserPhoto, nearestId: Option<string>)
  {
    nearestId == Some(photo.id)
  }

  /** When the gallery has chosen photo j and the ids are distinct (the list
      is keyed by id), a panel is selected exactly when it is photo j's, that
      is, exactly when its photo is the first nearest. */
  lemma SelectedIsFirstNearest(photos: seq<UserPhoto>, cam: Vec3, j: nat, k: nat)
    requires IsFirstNearest(photos, cam, j) && k < |photos|
    requires forall a, b :: 0 <= a < b < |photos| ==> photos[a].id != photos[b].id
    ensures IsSelected(photos[k], Some(photos[j].id)) <==> k == j
    ensures IsSelected(photos[k], Some(photos[j].id)) <==> IsFirstNearest(photos, cam, k)
  {
    if k != j {
      FirstNearestUnique(photos, cam, j, k);
      assert photos[k].id != photos[j].id by {
        if k < j {
          assert photos[k].id != photos[j].id;
        } else {
          assert photos[j].id != photos[k].id;
        }
      }
    }
  }

  /** A panel's pose: position, Euler rotation and the (uniform) scale. */
  datatype Pose = Pose(position: Vec3, rotation: Vec3, scale: real)

  const LerpSpeed: real := 3.0

  /** The pose a panel moves toward this frame. When it is selected and the
      hand pinches: the point `viewPos` four units in front of the camera,
      the rotation `viewRot` facing it (both computed by three.js, inputs
      here) with a slight roll, and scale 2.5. Otherwise: its place on the
      tree, bobbing a little in height and roll with `phase`, which the
      frame takes from the photo's id (IdPhase), and scale 1. */
  function PanelTarget(photo: UserPhoto, phase: int, selected: bool, gesture: Gesture, viewPos: Vec3, viewRot: Vec3,
                       t: real, sin: real -> real, cos: real -> real): (target: Pose)
  {
    if selected && gesture == Pinch then
      Pose(viewPos, viewRot.(z := viewRot.z + sin(t * 0.5) * 0.02), 2.5)
    else
      var offset := phase as real;
      var p, r := photo.position, photo.rotation;
      Pose(p.(y := p.y + sin(t * 1.5 + offset) * 0.003), r.(z := r.z + cos(t + offset) * 0.001), 1.0)
  }

  /** Selected while pinching: scale 2.5, position in front of the camera,
      facing it, rolled by at most 0.02. Otherwise: scale 1, x and z of the
      stored position, height within 0.003 of it, x and y of the stored
      rotation, roll within 0.001 of it, whatever the phase. */
  lemma PanelTargetChoice(photo: UserPhoto, phase: int, selected: bool, gesture: Gesture, viewPos: Vec3, viewRot: Vec3,
                          t: real, sin: real -> real, cos: real -> real)
    requires UnitBounded(sin) && UnitBounded(cos)
    ensures var target := PanelTarget(photo, phase, selected, gesture, viewPos, viewRot, t, sin, cos);
      if selected && gesture == Pinch then
        && target.scale == 2.5 && target.position == viewPos
        && target.rotation.x == viewRot.x && target.rotation.y == viewRot.y
        && Abs(target.rotation.z - viewRot.z) <= 0.02
      else
        && target.scale == 1.0
        && target.position.x == photo.position.x && target.position.z == photo.position.z
        && Abs(target.position.y - photo.position.y) <= 0.003
        && target.rotation.x == photo.rotation.x && target.rotation.y == photo.rotation.y
        && Abs(target.rotation.z - photo.rotation.z) <= 0.001
  {
    var offset := phase as real;
    assert -1.0 <= sin(t * 0.5) <= 1.0;
    assert -1.0 <= sin(t * 1.5 + offset) <= 1.0;
    assert -1.0 <= cos(t + offset) <= 1.0;
  }

  /** One damped step of a pose: Vector3.lerp for the position, MathUtils.lerp
      for each rotation angle and for the scale, all with the same factor. */
  function PanelStep(pose: Pose, target: Pose, factor: real): Pose
  {
    Pose(Vec3(Approach(pose.position.x, target.position.x, factor),
              Approach(pose.position.y, target.position.y, factor),
              Approach(pose.position.z, target.position.z, factor)),
         Vec3(Lerp(pose.rotation.x, target.rotation.x, factor),
              Lerp(pose.rotation.y, target.rotation.y, factor),
              Lerp(pose.rotation.z, target.rotation.z, factor)),
         Lerp(pose.scale, target.scale, factor))
  }

  /** A frame with delta = 0 leaves the pose as it was. */
  lemma PanelFrozen(pose: Pose, target: Pose)
    ensures PanelStep(pose, target, 0.0) == pose
  {
  }

  /** A factor of exactly 1 lands on the target. */
  lemma PanelArrives(pose: Pose, target: Pose)
    ensures PanelStep(pose, target, 1.0) == target
  {
  }

  /** With a factor in [0, 1] every coordinate of the stepped pose lies
      between its old value and its target; for larger factors, see
      MathUtils.UnclampedOvershoot. */
  lemma PanelBetween(pose: Pose, target: Pose, factor: real)
    requires 0.0 <= factor <= 1.0
    ensures var next := PanelStep(pose, target, factor);
      && Between(next.position.x, pose.position.x, target.position.x)
      && Between(next.position.y, pose.position.y, target.position.y)
      && Between(next.position.z, pose.position.z, target.position.z)
      && Between(next.rotation.x, pose.rotation.x, target.rotation.x)
      && Between(next.rotation.y, pose.rotation.y, target.rotation.y)
      && Between(next.rotation.z, pose.rotation.z, target.rotation.z)
      && Between(next.scale, pose.scale, target.scale)
  {
    ApproachBetween(pose.position.x, target.position.x, factor);
    ApproachBetween(pose.position.y, target.position.y, factor);
    ApproachBetween(pose.position.z, target.position.z, factor);
    ApproachBetween(pose.rotation.x, target.rotation.x, factor);
    ApproachBetween(pose.rotation.y, target.rotation.y, factor);
    ApproachBetween(pose.rotation.z, target.rotation.z, factor);
    ApproachBetween(pose.scale, target.scale, factor);
  }

  /** The first frame of a new panel: from scale 0 toward the idle scale 1
      the scale becomes exactly the factor, so with a factor in (0, 1] the
      panel pops in without passing full size. */
  lemma PopIn(pose: Pose, target: Pose, factor: real)
    requires pose.scale == 0.0 && target.scale == 1.0
    ensures PanelStep(pose, target, factor).scale == factor
  {
  }

  /** A photo panel: the photo it shows, the group's position, rotation and
      scale as three.js holds them, and the three target refs the frame
      callback rewrites. The list renders one panel per photo id, so the
      photo, and with it the bobbing phase read from its id, is fixed for
      the panel's lifetime. */
  class Panel {
    const photo: UserPhoto
    const phase: int
    var position: Vec3
    var rotation: Vec3
    var scale: Vec3
    var targetPos: Vec3
    var targetRot: Vec3
    var targetScale: real

    /** The scale is the same on every axis. */
    ghost predicate Uniform()
      reads this
    {
      scale.x == scale.y == scale.z
    }

    function Current(): Pose
      reads this
    {
      Pose(position, rotation, scale.x)
    }

    /** A new panel stands at its place on the tree with scale 0; the targets
        start at the stored pose and 0. */
    constructor (photo: UserPhoto)
      ensures this.photo == photo && phase == IdPhase(photo.id)
      ensures position == photo.position && rotation == photo.rotation && scale == Vec3(0.0, 0.0, 0.0)
      ensures targetPos == photo.position && targetRot == photo.rotation && targetScale == 0.0
      ensures Uniform()
    {
      this.photo := photo;
      phase := IdPhase(photo.id);
      position, rotation, scale := photo.position, photo.rotation, Vec3(0.0, 0.0, 0.0);
      targetPos, targetRot, targetScale := photo.position, photo.rotation, 0.0;
    }

    /** One frame: the targets are rewritten, then the pose steps toward them
        by delta * 3, and the new scale is set on all three axes. */
    method Frame(selected: bool, gesture: Gesture, viewPos: Vec3, viewRot: Vec3,
                 t: real, delta: real, sin: real -> real, cos: real -> real)
      modifies this
      ensures var target := PanelTarget(photo, phase, selected, gesture, viewPos, viewRot, t, sin, cos);
        && Pose(targetPos, targetRot, targetScale) == target
        && Current() == PanelStep(old(Current()), target, delta * LerpSpeed)
      ensures Uniform()
    {
      var target := PanelTarget(photo, phase, selected, gesture, viewPos, viewRot, t, sin, cos);
      targetPos, targetRot, targetScale := target.position, target.rotation, target.scale;
      StepTowardTarget(delta * LerpSpeed);
    }

    /** The damped step toward the stored targets with factor f. */
    method StepTowardTarget(f: real)
      modifies this
      ensures targetPos == old(targetPos) && targetRot == old(targetRot) && targetScale == old(targetScale)
      ensures Current() == PanelStep(old(Current()), Pose(targetPos, targetRot, targetScale), f)
      ensures Uniform()
    {
      position := Vec3(Approach(position.x, targetPos.x, f),
                       Approach(position.y, targetPos.y, f),
                       Approach(position.z, targetPos.z, f));
      rotation := Vec3(Lerp(rotation.x, targetRot.x, f),
                       Lerp(rotation.y, targetRot.y, f),
                       Lerp(rotation.z, targetRot.z, f));
      var currentScale := scale.x;
      var nextScale := Lerp(currentScale, targetScale, f);
      scale := Vec3(nextScale, nextScale, nextScale);
    }
  }
}
