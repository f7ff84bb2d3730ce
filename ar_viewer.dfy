/**
 * The screen-space fallback viewer (`ARViewer`): the frame is drawn over the camera image
 * at a fixed depth; the first press places it, later presses are meant to drag it (as
 * registered, `PressAsRegistered` places it again instead), and buttons scale, turn and
 * reset it.
 */
module ARViewer {
  import opened Geometry

  /** `Math.PI`, to the digits JavaScript prints. */
  const Pi: real := 3.141592653589793

  const MinScale: real := 0.5
  const MaxScale: real := 3.0
  const ScaleUp: real := 1.2
  const ScaleDown: real := 0.8

  /** World units per pixel of pointer travel. */
  const PanSensitivity: real := 0.01

  /** Where placing and resetting put the frame: two units in front of the camera. */
  const PlacePosition := Vec3(0.0, 0.0, -2.0)

  /** The argument of `handleScale`: `"up"` or anything else. */
  datatype Direction = Up | Down

  function Min(a: real, b: real): real { if a <= b then a else b }

  function Max(a: real, b: real): real { if a >= b then a else b }

  /** `Math.max(0.5, Math.min(3.0, s))`. */
  function Clamp(s: real): (r: real)
    ensures MinScale <= r <= MaxScale
    ensures MinScale <= s <= MaxScale ==> r == s
    ensures s > MaxScale ==> r == MaxScale
    ensures s < MinScale ==> r == MinScale
  {
    Max(MinScale, Min(MaxScale, s))
  }

  /** The scale after one press of a scale button. */
  function Rescaled(scale: real, direction: Direction): (r: real)
    ensures MinScale <= r <= MaxScale
    ensures direction == Up && scale >= MaxScale / ScaleUp ==> r == MaxScale
    ensures direction == Down && scale <= MinScale / ScaleDown ==> r == MinScale
    ensures MinScale <= scale <= MaxScale && direction == Up ==> r >= scale
    ensures MinScale <= scale <= MaxScale && direction == Down ==> r <= scale
  {
    var newScale := if direction == Up then scale * ScaleUp else scale * ScaleDown;
    Clamp(newScale)
  }

  /** Scaling up and then down does not undo the step: away from the bounds it shrinks the scale to 96%. */
  lemma UpThenDown(scale: real)
    requires MinScale / (ScaleUp * ScaleDown) <= scale <= MaxScale / ScaleUp
    ensures Rescaled(Rescaled(scale, Up), Down) == scale * ScaleUp * ScaleDown
    ensures scale > 0.0 ==> Rescaled(Rescaled(scale, Up), Down) < scale
  {
  }

  /** One pointer move: the frame shifts by the pointer travel since `from`, x to the right and y inverted. */
  function Dragged(position: Vec3, from: Point, to: Point): Vec3 {
    Vec3(position.x + (to.x - from.x) * PanSensitivity,
         position.y + (to.y - from.y) * -PanSensitivity,
         position.z)
  }

  /** The frame position after a run of moves, each of which re-bases the pointer origin at the point it reached. */
  function DragAlong(position: Vec3, from: Point, trail: seq<Point>): Vec3
    decreases |trail|
  {
    if trail == [] then position
    else DragAlong(Dragged(position, from, trail[0]), trail[0], trail[1..])
  }

  /** The steps of a drag telescope: a whole run moves the frame by the pointer's total travel. */
  lemma {:induction false} DragTelescopes(position: Vec3, from: Point, trail: seq<Point>)
    requires trail != []
    ensures DragAlong(position, from, trail) == Dragged(position, from, trail[|trail| - 1])
    decreases |trail|
  {
    var next := Dragged(position, from, trail[0]);
    if |trail| > 1 {
      DragTelescopes(next, trail[0], trail[1..]);
      assert trail[1..][|trail[1..]| - 1] == trail[|trail| - 1];
    }
  }

  /**
   * The component's state and the frame it draws, once the camera runs and the scene is
   * built: the `isPlaced`, `isDragging`, `scale`, `rotation` and `framePosition` state,
   * the last pointer position `touchStartRef.current`, and the frame group's visibility,
   * position, uniform scale and rotation about z.
   */
  class Viewer {
    var isPlaced: bool
    var isDragging: bool
    var scale: real
    var rotation: real
    var framePosition: Vec3
    var touchStart: Point
    var frameVisible: bool
    var framePos: Vec3
    var frameScale: real
    var frameRotationZ: real

    /**
     * The scale stays within its bounds, the frame shows the scale and rotation state, it
     * is shown exactly once placed, and only a placed frame is dragged.
     */
    ghost predicate Valid()
      reads this
    {
      MinScale <= scale <= MaxScale &&
      frameScale == scale && frameRotationZ == rotation &&
      frameVisible == isPlaced &&
      (isDragging ==> isPlaced)
    }

    /** The first render's state with the frame built hidden at `PlacePosition`, unit scale and no rotation. */
    constructor ()
      ensures Valid()
      ensures !isPlaced && !isDragging && scale == 1.0 && rotation == 0.0
      ensures framePosition == PlacePosition && touchStart == Point(0.0, 0.0)
      ensures !frameVisible && framePos == PlacePosition
    {
      isPlaced, isDragging := false, false;
      scale, rotation := 1.0, 0.0;
      framePosition := PlacePosition;
      touchStart := Point(0.0, 0.0);
      frameVisible, framePos := false, PlacePosition;
      frameScale, frameRotationZ := 1.0, 0.0;
    }

    /** `handlePlace`: the frame is placed, shown, and put at `PlacePosition`. */
    method HandlePlace()
      requires Valid()
      modifies this`isPlaced, this`frameVisible, this`framePos
      ensures Valid()
      ensures isPlaced && frameVisible && framePos == PlacePosition
    {
      isPlaced := true;
      frameVisible := true;
      framePos := PlacePosition;
    }

    /**
     * `handleTouchStart` and `handleMouseDown` on the current state: the pointer becomes
     * the drag origin; an unplaced frame is placed, a placed one starts a drag without
     * moving.
     */
    method Press(p: Point)
      requires Valid()
      modifies this`touchStart, this`isPlaced, this`frameVisible, this`framePos, this`isDragging
      ensures Valid()
      ensures touchStart == p && isPlaced && frameVisible
      ensures !old(isPlaced) ==> framePos == PlacePosition && !isDragging
      ensures old(isPlaced) ==> isDragging && framePos == old(framePos)
    {
      touchStart := p;
      if !isPlaced {
        HandlePlace();
      } else {
        isDragging := true;
      }
    }

    /**
     * `handleTouchStart` and `handleMouseDown` as the canvas runs them. The listeners are
     * registered once, from the first render, and keep reading that render's `isPlaced`,
     * which is false: every press places the frame again.
     */
    method PressAsRegistered(p: Point)
      requires Valid()
      modifies this`touchStart, this`isPlaced, this`frameVisible, this`framePos
      ensures Valid()
      ensures touchStart == p && isPlaced && frameVisible && framePos == PlacePosition
    {
      touchStart := p;
      HandlePlace();
    }

    /**
     * `handleTouchMove` and `handleMouseMove`: while a placed frame is dragged, it moves by
     * the pointer travel since the last event and the pointer becomes the new origin;
     * otherwise nothing changes.
     */
    method Move(p: Point)
      requires Valid()
      modifies this`framePos, this`framePosition, this`touchStart
      ensures Valid()
      ensures !(isDragging && isPlaced) ==>
                framePos == old(framePos) && framePosition == old(framePosition) && touchStart == old(touchStart)
      ensures isDragging && isPlaced ==>
                framePos == Dragged(old(framePos), old(touchStart), p) && framePosition == framePos &&
                touchStart == p
    {
      if !isDragging || !isPlaced {
        return;
      }
      var deltaX := (p.x - touchStart.x) * PanSensitivity;
      var deltaY := (p.y - touchStart.y) * -PanSensitivity;
      var newPosition := Vec3(framePos.x + deltaX, framePos.y + deltaY, framePos.z);
      framePos := newPosition;
      framePosition := newPosition;
      touchStart := p;
    }

    /** `handleTouchEnd` and `handleMouseUp`: the drag ends. */
    method Release()
      requires Valid()
      modifies this`isDragging
      ensures Valid()
      ensures !isDragging
    {
      isDragging := false;
    }

    /** `handleScale`: the scale state is multiplied by 1.2 or 0.8, clamped, and applied to the frame. */
    method HandleScale(direction: Direction)
      requires Valid()
      modifies this`scale, this`frameScale
      ensures Valid()
      ensures scale == Rescaled(old(scale), direction)
    {
      var newScale := if direction == Up then scale * ScaleUp else scale * ScaleDown;
      var clampedScale := Max(MinScale, Min(MaxScale, newScale));
      scale := clampedScale;
      frameScale := clampedScale;
    }

    /** `handleRotate`: the rotation grows by a quarter of pi, with no wrapping, and is applied to the frame. */
    method HandleRotate()
      requires Valid()
      modifies this`rotation, this`frameRotationZ
      ensures Valid()
      ensures rotation == old(rotation) + Pi / 4.0
    {
      var newRotation := rotation + Pi / 4.0;
      rotation := newRotation;
      frameRotationZ := newRotation;
    }

    /** `handleReset`: unit scale, no rotation, the frame back at `PlacePosition`; placement and visibility stay. */
    method HandleReset()
      requires Valid()
      modifies this`scale, this`rotation, this`frameScale, this`frameRotationZ, this`framePos
      ensures Valid()
      ensures scale == 1.0 && rotation == 0.0 && framePos == PlacePosition
    {
      scale, rotation := 1.0, 0.0;
      frameScale, frameRotationZ := 1.0, 0.0;
      framePos := PlacePosition;
    }
  }

  /**
   * With the listeners as registered, a press that places the frame, a release, a second
   * press and a move leave the frame where it was placed, whatever the pointer did: the
   * second press places it again instead of starting a drag, and the registered move
   * handler, which also reads the first render's `isDragging`, does nothing.
   */
  method DragAsRegistered(start: Point, end: Point) returns (position: Vec3)
    ensures position == PlacePosition
  {
    var v := new Viewer();
    v.PressAsRegistered(start);
    v.Release();
    v.PressAsRegistered(start);
    v.Move(end);
    position := v.framePos;
  }

  /** With handlers that read the current state, the same events move the frame by the pointer travel. */
  method Drag(start: Point, end: Point) returns (position: Vec3)
    ensures position == Dragged(PlacePosition, start, end)
    ensures end != start ==> position != PlacePosition
  {
    var v := new Viewer();
    v.Press(start);
    v.Release();
    v.Press(start);
    v.Move(end);
    position := v.framePos;
  }

  /** Eight turns make a full circle: the rotation state reaches two pi and is not wrapped to zero. */
  method EightTurns() returns (rotation: real)
    ensures rotation == 2.0 * Pi
  {
    var v := new Viewer();
    var n := 0;
    while n < 8
      invariant 0 <= n <= 8
      invariant v.Valid() && v.rotation == n as real * Pi / 4.0
    {
      v.HandleRotate();
      n := n + 1;
    }
    rotation := v.rotation;
  }
}
