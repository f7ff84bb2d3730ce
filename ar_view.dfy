/**
 * The three.js WebXR frame view (`ARView`): a reticle follows the first hit-test result of
 * each frame; a controller `select` is meant to place the frame group at the reticle and a
 * held select to drag it, which the loop as written (`AnimationFrameAsWritten`) defeats; a
 * two-finger touch scales the frame against the distance at touch start and the scale
 * saved at touch end, and sets its z turn to the current finger angle.
 */
module ARView {
  import opened Wrappers
  import opened Geometry

  /**
   * The scale of a two-finger move: the scale committed at the last touch end times the
   * ratio of the current finger distance to the distance at the two-finger touch start.
   */
  function PinchScale(initialScale: real, initialDistance: real, distance: real): (r: real)
    requires initialDistance > 0.0
    ensures r * initialDistance == initialScale * distance
    ensures distance == initialDistance ==> r == initialScale
    ensures initialScale > 0.0 ==> (r > initialScale <==> distance > initialDistance)
    ensures initialScale > 0.0 ==> (r < initialScale <==> distance < initialDistance)
  {
    var scaleFactor := distance / initialDistance;
    initialScale * scaleFactor
  }

  /** A pose whose turn about the z axis is replaced by `angle`. */
  function WithRotationZ(p: Pose, angle: real): Pose {
    p.(rotation := p.rotation.(z := angle))
  }

  /**
   * The closure variables of `ARView` and the objects its handlers mutate: the hit-test
   * source, the drag flag and the pinch references, the reticle mesh and the frame group.
   * The reticle has `matrixAutoUpdate` off: the renderer draws it at `reticleMatrix`,
   * while `reticlePose` holds its `position` and `quaternion` fields, which three.js keeps
   * apart from the matrix.
   */
  class ArView {
    var hitTestSource: bool               // `hitTestSource` is set
    var hitTestSourceRequested: bool
    var isDragging: bool
    var initialTouchDistance: Option<real>
    var initialScale: real
    var initialRotation: real
    var reticleVisible: bool
    var reticleMatrix: Pose
    var reticlePose: Pose
    var frameVisible: bool
    var framePose: Pose
    var frameScale: Vec3

    /** The reticle's fields describe the pose it is drawn at whenever it is shown. */
    ghost predicate Aligned()
      reads this
    {
      reticleVisible ==> reticlePose == reticleMatrix
    }

    /**
     * After mounting: no hit-test source, no drag, no pinch reference, initial scale 1 and
     * rotation 0; the reticle is hidden, and the frame group is as three.js builds a group,
     * visible at the identity pose with unit scale.
     */
    constructor ()
      ensures !hitTestSource && !hitTestSourceRequested && !isDragging
      ensures initialTouchDistance == None && initialScale == 1.0 && initialRotation == 0.0
      ensures !reticleVisible && reticleMatrix == IdentityPose && reticlePose == IdentityPose
      ensures frameVisible && framePose == IdentityPose && frameScale == Vec3(1.0, 1.0, 1.0)
      ensures Aligned()
    {
      hitTestSource, hitTestSourceRequested, isDragging := false, false, false;
      initialTouchDistance, initialScale, initialRotation := None, 1.0, 0.0;
      reticleVisible, reticleMatrix, reticlePose := false, IdentityPose, IdentityPose;
      frameVisible, framePose, frameScale := true, IdentityPose, Vec3(1.0, 1.0, 1.0);
    }

    /** `sessionstart`: the hit-test source is requested and the flag is set at once. */
    method OnSessionStart()
      modifies this`hitTestSourceRequested
      ensures hitTestSourceRequested
    {
      hitTestSourceRequested := true;
    }

    /** The requested hit-test source arrives. */
    method OnHitTestSource()
      modifies this`hitTestSource
      ensures hitTestSource
    {
      hitTestSource := true;
    }

    /** The session's `end`: the request flag and the source are cleared and the reticle is hidden. */
    method OnSessionEnd()
      modifies this`hitTestSourceRequested, this`hitTestSource, this`reticleVisible
      ensures !hitTestSourceRequested && !hitTestSource && !reticleVisible
      ensures Aligned()
    {
      hitTestSourceRequested := false;
      hitTestSource := false;
      reticleVisible := false;
    }

    /** `selectstart` starts a drag. */
    method OnSelectStart()
      modifies this`isDragging
      ensures isDragging
    {
      isDragging := true;
    }

    /** `selectend` ends it. */
    method OnSelectEnd()
      modifies this`isDragging
      ensures !isDragging
    {
      isDragging := false;
    }

    /**
     * `select`: with the reticle shown, the frame group takes the reticle's position and
     * quaternion and is shown; with the reticle hidden nothing changes.
     */
    method OnSelect()
      modifies this`framePose, this`frameVisible
      ensures old(reticleVisible) ==> framePose == reticlePose && frameVisible
      ensures old(reticleVisible) && Aligned() ==> framePose == reticleMatrix
      ensures !old(reticleVisible) ==> framePose == old(framePose) && frameVisible == old(frameVisible)
    {
      if reticleVisible {
        framePose := reticlePose;
        frameVisible := true;
      }
    }

    /**
     * One pass of the animation loop as written. With an XR frame and an active hit-test
     * source, the reticle is shown with its matrix set to the first hit's pose, or hidden
     * when there are no hits; a drag moves a visible frame to the reticle's position and
     * quaternion. Setting the matrix leaves those fields as they were.
     */
    method AnimationFrameAsWritten(xrFrame: bool, hits: seq<Pose>)
      modifies this`reticleVisible, this`reticleMatrix, this`framePose
      ensures reticlePose == old(reticlePose)
      ensures !(xrFrame && hitTestSourceRequested && hitTestSource) ==>
                reticleVisible == old(reticleVisible) && reticleMatrix == old(reticleMatrix) &&
                framePose == old(framePose)
      ensures xrFrame && hitTestSourceRequested && hitTestSource && |hits| == 0 ==>
                !reticleVisible && reticleMatrix == old(reticleMatrix) && framePose == old(framePose)
      ensures xrFrame && hitTestSourceRequested && hitTestSource && |hits| > 0 ==>
                reticleVisible && reticleMatrix == hits[0] &&
                framePose == if isDragging && frameVisible then old(reticlePose) else old(framePose)
    {
      if xrFrame && hitTestSourceRequested && hitTestSource {
        if |hits| > 0 {
          var pose := hits[0];
          reticleVisible := true;
          reticleMatrix := pose;
          if isDragging && frameVisible {
            framePose := reticlePose;
          }
        } else {
          reticleVisible := false;
        }
      }
    }

    /**
     * One pass of the animation loop with the hit pose also decomposed into the reticle's
     * position and quaternion, so that placing and dragging use the pose the reticle is
     * drawn at.
     */
    method AnimationFrame(xrFrame: bool, hits: seq<Pose>)
      modifies this`reticleVisible, this`reticleMatrix, this`reticlePose, this`framePose
      ensures old(Aligned()) ==> Aligned()
      ensures !(xrFrame && hitTestSourceRequested && hitTestSource) ==>
                reticleVisible == old(reticleVisible) && reticleMatrix == old(reticleMatrix) &&
                reticlePose == old(reticlePose) && framePose == old(framePose)
      ensures xrFrame && hitTestSourceRequested && hitTestSource && |hits| == 0 ==>
                !reticleVisible && reticleMatrix == old(reticleMatrix) && reticlePose == old(reticlePose) &&
                framePose == old(framePose)
      ensures xrFrame && hitTestSourceRequested && hitTestSource && |hits| > 0 ==>
                reticleVisible && reticleMatrix == hits[0] && reticlePose == hits[0] &&
                framePose == if isDragging && frameVisible then hits[0] else old(framePose)
    {
      if xrFrame && hitTestSourceRequested && hitTestSource {
        if |hits| > 0 {
          var pose := hits[0];
          reticleVisible := true;
          reticleMatrix := pose;
          reticlePose := pose;
          if isDragging && frameVisible {
            framePose := reticlePose;
          }
        } else {
          reticleVisible := false;
        }
      }
    }

    /**
     * `touchstart`: with two touches, the finger distance and angle (`Math.sqrt` and
     * `Math.atan2` of the two touch points) become the pinch references.
     */
    method OnTouchStart(touches: nat, distance: real, angle: real)
      requires distance >= 0.0
      modifies this`initialTouchDistance, this`initialRotation
      ensures touches == 2 ==> initialTouchDistance == Some(distance) && initialRotation == angle
      ensures touches != 2 ==>
                initialTouchDistance == old(initialTouchDistance) && initialRotation == old(initialRotation)
    {
      if touches == 2 {
        initialTouchDistance := Some(distance);
        initialRotation := angle;
      }
    }

    /**
     * `touchmove` with two touches: the frame is scaled on all three axes against the
     * references, not against its current scale, and turned about z to the finger angle.
     * The source divides by the reference distance unguarded, so the move needs a
     * recorded, non-zero one.
     */
    method OnTouchMove(touches: nat, distance: real, angle: real)
      requires touches == 2 ==> initialTouchDistance.Some? && initialTouchDistance.value > 0.0
      modifies this`frameScale, this`framePose
      ensures touches == 2 ==>
                var s := PinchScale(initialScale, initialTouchDistance.value, distance);
                frameScale == Vec3(s, s, s) && framePose == WithRotationZ(old(framePose), angle)
      ensures touches != 2 ==> frameScale == old(frameScale) && framePose == old(framePose)
    {
      if touches == 2 {
        var scaleFactor := distance / initialTouchDistance.value;
        var s := initialScale * scaleFactor;
        frameScale := Vec3(s, s, s);
        var deltaRotation := angle - initialRotation;
        framePose := WithRotationZ(framePose, initialRotation + deltaRotation);
      }
    }

    /** `touchend`: the frame's current x scale and z rotation become the references, and the reference distance is cleared. */
    method OnTouchEnd()
      modifies this`initialScale, this`initialRotation, this`initialTouchDistance
      ensures initialScale == frameScale.x && initialRotation == framePose.rotation.z
      ensures initialTouchDistance == None
    {
      initialScale := frameScale.x;
      initialRotation := framePose.rotation.z;
      initialTouchDistance := None;
    }
  }

  /**
   * With the loop as written, a session that sees one hit and then a select places the
   * frame at the identity pose, wherever the hit was.
   */
  method PlacementAsWritten(hit: Pose) returns (placed: Pose)
    ensures placed == IdentityPose
  {
    var v := new ArView();
    v.OnSessionStart();
    v.OnHitTestSource();
    v.AnimationFrameAsWritten(true, [hit]);
    v.OnSelect();
    placed := v.framePose;
  }

  /** With the decomposing loop, the same select places the frame at the hit. */
  method Placement(hit: Pose) returns (placed: Pose)
    ensures placed == hit
  {
    var v := new ArView();
    v.OnSessionStart();
    v.OnHitTestSource();
    v.AnimationFrame(true, [hit]);
    v.OnSelect();
    placed := v.framePose;
  }

  /**
   * A pinch gesture followed by a second one: the second starts from the scale the first
   * committed, so the overall factor is the product of the two distance ratios.
   */
  lemma PinchesCompose(s: real, d0: real, d1: real, e0: real, e1: real)
    requires d0 > 0.0 && e0 > 0.0
    ensures PinchScale(PinchScale(s, d0, d1), e0, e1) * (d0 * e0) == s * (d1 * e1)
  {
  }
}
