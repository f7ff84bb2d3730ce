/**
 * The WebXR poster view (`ARPoster`): each frame a reticle is shown at the first hit-test
 * result that passes a tilt filter meant to select walls, and a tap places a poster there.
 * As written, the filter reads the orientation quaternion's `y` rather than the surface
 * normal's (`OnXRFrameAsWritten`). Posters are kept in a list of at most `MaxPosters`;
 * placing one more evicts the oldest, from the list and from the scene.
 */
module ARPoster {
  import opened Wrappers
  import opened Geometry

  /** `MAX_POSTERS`: how many posters the list keeps. */
  const MaxPosters: nat := 10

  /** A hit passes the filter when the tilt the filter reads is below this in absolute value. */
  const TiltLimit: real := 0.2

  /** A unit quaternion, as a hit pose's `transform.orientation`. */
  datatype Quaternion = Quaternion(x: real, y: real, z: real, w: real)

  /** One hit-test result: its pose in the local reference space. */
  datatype Hit = Hit(position: Vec3, orientation: Quaternion)

  /**
   * One `a-plane` poster element. `id` is its creation index: every call that places a
   * poster creates a new element, so two posters are never the same element.
   */
  datatype Poster = Poster(id: nat, position: Vec3)

  /** What placing one poster did to the list and to the scene. */
  datatype Outcome =
    | Appended                        // below capacity: nothing evicted
    | Evicted(removed: Poster)        // the oldest poster left the list and the scene
    | EvictionFault(removed: Poster)  // the oldest left the list, but `removeChild` threw: it was not in the scene

  /** Which number of a hit's orientation the frame loop's filter compares with `TiltLimit`. */
  datatype Filter =
    | OrientationY  // the `y` component of the orientation quaternion, as the loop is written
    | NormalY       // the `y` component of the surface normal, which a wall has near zero

  function Abs(x: real): real { if x < 0.0 then -x else x }

  /**
   * The `y` component of the surface normal of a hit. A hit pose's Y axis is the surface
   * normal; a unit quaternion turns the Y axis to a vector whose `y` is this.
   */
  function NormalYOf(q: Quaternion): real {
    1.0 - 2.0 * (q.x * q.x + q.z * q.z)
  }

  /** The tilt that filter `f` reads from orientation `q`. */
  function Tilt(f: Filter, q: Quaternion): real {
    match f
    case OrientationY => q.y
    case NormalY => NormalYOf(q)
  }

  /** The test applied to each hit by the frame loop. */
  predicate Passes(f: Filter, h: Hit) { Abs(Tilt(f, h.orientation)) < TiltLimit }

  /** The index of the first hit that passes `f`, or `None` when no hit does. */
  function FirstPassing(f: Filter, hits: seq<Hit>): (r: Option<nat>)
    ensures r.Some? ==> r.value < |hits| && Passes(f, hits[r.value])
    ensures r.Some? ==> forall j :: 0 <= j < r.value ==> !Passes(f, hits[j])
    ensures r.None? <==> forall j :: 0 <= j < |hits| ==> !Passes(f, hits[j])
  {
    if |hits| == 0 then None
    else if Passes(f, hits[0]) then Some(0)
    else
      match FirstPassing(f, hits[1..])
      case None =>
        assert forall j :: 1 <= j < |hits| ==> hits[j] == hits[1..][j - 1];
        None
      case Some(k) =>
        assert forall j :: 1 <= j < k + 1 ==> hits[j] == hits[1..][j - 1];
        Some(k + 1)
  }

  /** An up-facing hit (a floor) at the origin: the identity orientation leaves the normal on +Y. */
  const FloorHit := Hit(Origin, Quaternion(0.0, 0.0, 0.0, 1.0))

  /** A wall hit at the origin: a third of a turn about (1, 1, -1) takes the normal from +Y to +X. */
  const WallHit := Hit(Origin, Quaternion(0.5, 0.5, -0.5, 0.5))

  /** The filter on the normal picks `WallHit` as the first hit of a frame that holds only it. */
  lemma WallHitPasses()
    ensures NormalYOf(WallHit.orientation) == 0.0
    ensures FirstPassing(NormalY, [WallHit]) == Some(0)
  {
  }

  /** A wall hit whose orientation has a small `y`: its normal is horizontal. */
  const LowYWallHit := Hit(Origin, Quaternion(0.7, 0.1, 0.1, 0.7))

  /** A floor hit turned about the vertical: its normal stays on +Y while the orientation's `y` grows. */
  const TurnedFloorHit := Hit(Origin, Quaternion(0.0, 0.6, 0.0, 0.8))

  /**
   * The filter as written judges `FloorHit` and `WallHit` the wrong way round: it passes
   * the floor, whose normal is vertical, and rejects the wall, whose normal is horizontal.
   * Its verdict does not follow the tilt at all: it also passes the wall `LowYWallHit` and
   * rejects the floor `TurnedFloorHit`, so it is neither a wall test nor a floor test.
   */
  lemma OrientationFilterMisjudges()
    ensures NormalYOf(FloorHit.orientation) == 1.0 && NormalYOf(WallHit.orientation) == 0.0
    ensures Passes(OrientationY, FloorHit) && !Passes(OrientationY, WallHit)
    ensures !Passes(NormalY, FloorHit) && Passes(NormalY, WallHit)
    ensures FirstPassing(NormalY, [WallHit]) == Some(0)
    ensures NormalYOf(LowYWallHit.orientation) == 0.0 && Passes(OrientationY, LowYWallHit)
    ensures NormalYOf(TurnedFloorHit.orientation) == 1.0 && !Passes(OrientationY, TurnedFloorHit)
  {
  }

  /** `t` is what is left of `s` after dropping some of its first elements. */
  predicate IsSuffix(t: seq<Poster>, s: seq<Poster>) {
    |t| <= |s| && t == s[|s| - |t|..]
  }

  /** Posters in strictly increasing creation order (so no element occurs twice). */
  predicate Ascending(s: seq<Poster>) {
    forall i, j :: 0 <= i < j < |s| ==> s[i].id < s[j].id
  }

  /** The poster list after `push(p)` and, when that makes it longer than `MaxPosters`, one `shift()`. */
  function Pushed(posters: seq<Poster>, p: Poster): (r: seq<Poster>)
    ensures |r| > 0 && r[|r| - 1] == p
    ensures |posters| <= MaxPosters ==> |r| <= MaxPosters
    ensures |posters| < MaxPosters ==> r == posters + [p]
    ensures |posters| == MaxPosters ==> r == posters[1..] + [p]
  {
    var grown := posters + [p];
    if |grown| > MaxPosters then grown[1..] else grown
  }

  /** The last `MaxPosters` elements of `s`, or all of `s` when it is no longer than that. */
  function Newest(s: seq<Poster>): seq<Poster>
    decreases |s|
  {
    if |s| <= MaxPosters then s else Newest(s[1..])
  }

  /** The poster list after placing each of `ps` in turn. */
  function PlaceAll(posters: seq<Poster>, ps: seq<Poster>): seq<Poster>
    decreases |ps|
  {
    if ps == [] then posters else PlaceAll(Pushed(posters, ps[0]), ps[1..])
  }

  /** Keeping the newest of a list and then appending loses nothing the newest of the whole would keep. */
  lemma {:induction false} NewestAbsorbs(a: seq<Poster>, b: seq<Poster>)
    ensures Newest(Newest(a) + b) == Newest(a + b)
    decreases |a|
  {
    if |a| > MaxPosters {
      NewestAbsorbs(a[1..], b);
      assert (a + b)[1..] == a[1..] + b;
    }
  }

  /** One placement keeps the newest posters of the list grown by one. */
  lemma PushedIsNewest(posters: seq<Poster>, p: Poster)
    requires |posters| <= MaxPosters
    ensures Pushed(posters, p) == Newest(posters + [p])
  {
  }

  /**
   * First in, first out: whatever sequence of posters is placed, the list holds exactly the
   * newest `MaxPosters` of all posters so far, in the order they were placed.
   */
  lemma {:induction false} PlaceAllKeepsNewest(posters: seq<Poster>, ps: seq<Poster>)
    requires |posters| <= MaxPosters
    ensures PlaceAll(posters, ps) == Newest(posters + ps)
    decreases |ps|
  {
    if ps == [] {
      assert posters + ps == posters;
    } else {
      var grown := posters + [ps[0]];
      PushedIsNewest(posters, ps[0]);
      PlaceAllKeepsNewest(Pushed(posters, ps[0]), ps[1..]);
      NewestAbsorbs(grown, ps[1..]);
      assert grown + ps[1..] == posters + ps;
    }
  }

  /** Eleven placements into an empty list leave ten posters: the first is gone, the eleventh is there. */
  lemma ElevenPlacements(ps: seq<Poster>)
    requires |ps| == MaxPosters + 1 && Ascending(ps)
    ensures PlaceAll([], ps) == ps[1..]
    ensures |PlaceAll([], ps)| == MaxPosters
    ensures ps[0] !in PlaceAll([], ps) && ps[MaxPosters] in PlaceAll([], ps)
  {
    PlaceAllKeepsNewest([], ps);
    assert [] + ps == ps;
    var kept := ps[1..];
    assert Newest(ps) == kept;
    assert ps[MaxPosters] == kept[MaxPosters - 1];
    forall j | 0 <= j < |kept| ensures kept[j] != ps[0] {
      assert kept[j] == ps[j + 1];
      assert ps[0].id < ps[j + 1].id;
    }
  }

  /**
   * The list holds the posters created just before the `next`-th, in creation order: the
   * one at index `i` of a list of length `n` was the `(next - n + i)`-th created.
   */
  predicate Consecutive(s: seq<Poster>, next: nat) {
    |s| <= next && forall i :: 0 <= i < |s| ==> s[i].id == next - |s| + i
  }

  /**
   * The children list once `p` is taken out of it, `p` occurring at most once. This is the
   * list update of a `removeChild(p)` that succeeds; the DOM call throws when `p` is not a
   * child, which `AddPosterAt` reports as `EvictionFault` without calling this.
   */
  function Without(s: seq<Poster>, p: Poster): (r: seq<Poster>)
    ensures p !in s ==> r == s
    ensures |s| > 0 && s[0] == p ==> r == s[1..]
  {
    if s == [] then []
    else if s[0] == p then s[1..]
    else [s[0]] + Without(s[1..], p)
  }

  /** A suffix of a list of distinct posters contains its first element exactly when it is the whole list. */
  lemma SuffixHoldsHead(t: seq<Poster>, s: seq<Poster>, next: nat)
    requires |s| > 0 && Consecutive(s, next) && IsSuffix(t, s)
    ensures s[0] in t <==> t == s
  {
  }

  /**
   * The state `ARPoster` keeps: whether AR is active, the session reference, the poster
   * list `postersRef.current`, the poster planes of the mounted `a-scene` (in document
   * order), and the reticle's `visible` and `position` attributes.
   */
  class PosterSession {
    var arActive: bool
    var session: bool         // `xrSessionRef.current` is set
    var posters: seq<Poster>  // `postersRef.current`
    var scene: seq<Poster>    // poster planes that are children of the mounted scene
    var reticleVisible: bool
    var reticlePosition: Vec3
    var reticleMatrix: Vec3   // the translation of the reticle's `object3D.matrix`, rebuilt when the scene renders
    var created: nat          // poster elements created so far; the next one gets this id

    /** The list is bounded, holds the latest posters created in creation order, and the scene shows its newest part. */
    ghost predicate Valid()
      reads this
    {
      |posters| <= MaxPosters &&
      Consecutive(posters, created) &&
      |scene| <= |posters| && scene == posters[|posters| - |scene|..]
    }

    /** The scene shows exactly the posters of the list. */
    ghost predicate Synced()
      reads this
    {
      scene == posters
    }

    /** The component as first rendered: AR off, no posters, the reticle hidden at the origin. */
    constructor ()
      ensures Valid() && Synced()
      ensures !arActive && !session && posters == [] && created == 0
      ensures !reticleVisible && reticlePosition == Origin && reticleMatrix == Origin
    {
      arActive, session := false, false;
      posters, scene := [], [];
      reticleVisible, reticlePosition, reticleMatrix := false, Origin, Origin;
      created := 0;
    }

    /**
     * "Start AR": a new `a-scene` is mounted, holding a hidden reticle and no posters, and
     * an XR session is requested; `granted` says whether it was started (on failure AR goes
     * back off). When AR is already active, setting the flag again changes nothing.
     */
    method StartAr(granted: bool)
      requires Valid()
      modifies this`arActive, this`session, this`scene, this`reticleVisible, this`reticlePosition, this`reticleMatrix
      ensures Valid()
      ensures posters == old(posters)
      ensures old(arActive) ==> arActive && session == old(session) && scene == old(scene) &&
                                reticleVisible == old(reticleVisible) && reticlePosition == old(reticlePosition) &&
                                reticleMatrix == old(reticleMatrix)
      ensures !old(arActive) ==> arActive == granted && session == granted && scene == [] &&
                                 !reticleVisible && reticlePosition == Origin && reticleMatrix == Origin
      ensures !old(arActive) ==> (Synced() <==> posters == [])
    {
      if !arActive {
        scene := [];
        reticleVisible, reticlePosition, reticleMatrix := false, Origin, Origin;
        arActive, session := granted, granted;
      }
    }

    /**
     * One XR frame as written. The reticle is hidden first; when the viewer has a pose, it
     * is shown at the first hit whose orientation quaternion has a small `y`, and the
     * remaining hits are ignored. The hit-test source is always set before the first frame
     * is requested.
     */
    method OnXRFrameAsWritten(hits: seq<Hit>, viewerPose: bool)
      modifies this`reticleVisible, this`reticlePosition
      ensures reticleVisible <==> viewerPose && FirstPassing(OrientationY, hits).Some?
      ensures reticleVisible ==> reticlePosition == hits[FirstPassing(OrientationY, hits).value].position
      ensures !reticleVisible ==> reticlePosition == old(reticlePosition)
    {
      reticleVisible := false;
      if viewerPose {
        var i := 0;
        while i < |hits|
          invariant 0 <= i <= |hits|
          invariant forall j :: 0 <= j < i ==> !Passes(OrientationY, hits[j])
          invariant !reticleVisible && reticlePosition == old(reticlePosition)
        {
          if Abs(hits[i].orientation.y) < TiltLimit {
            reticleVisible := true;
            reticlePosition := hits[i].position;
            break;
          }
          i := i + 1;
        }
      }
    }

    /**
     * One XR frame with the filter on the surface normal, as meant: the reticle is shown
     * exactly when some hit lies on a wall, at the first such hit; a frame whose hits all
     * have a steep normal (floors, ceilings, tilted surfaces) leaves it hidden.
     */
    method OnXRFrame(hits: seq<Hit>, viewerPose: bool)
      modifies this`reticleVisible, this`reticlePosition
      ensures reticleVisible <==> viewerPose && FirstPassing(NormalY, hits).Some?
      ensures (forall j :: 0 <= j < |hits| ==> Abs(NormalYOf(hits[j].orientation)) >= TiltLimit) ==> !reticleVisible
      ensures reticleVisible ==> reticlePosition == hits[FirstPassing(NormalY, hits).value].position
      ensures !reticleVisible ==> reticlePosition == old(reticlePosition)
    {
      reticleVisible := false;
      if viewerPose {
        var i := 0;
        while i < |hits|
          invariant 0 <= i <= |hits|
          invariant forall j :: 0 <= j < i ==> !Passes(NormalY, hits[j])
          invariant !reticleVisible && reticlePosition == old(reticlePosition)
        {
          if Abs(NormalYOf(hits[i].orientation)) < TiltLimit {
            reticleVisible := true;
            reticlePosition := hits[i].position;
            break;
          }
          i := i + 1;
        }
      }
    }

    /**
     * `addPosterAt`: a new poster is appended to the scene and pushed onto the list; when
     * the list then holds more than `MaxPosters`, its oldest is shifted off and removed
     * from the scene, which throws when the scene does not hold it.
     */
    method AddPosterAt(position: Vec3) returns (outcome: Outcome)
      requires Valid()
      modifies this`posters, this`scene, this`created
      ensures Valid()
      ensures created == old(created) + 1
      ensures posters == Pushed(old(posters), Poster(old(created), position))
      ensures |old(posters)| < MaxPosters ==>
                outcome == Appended && scene == old(scene) + [Poster(old(created), position)]
      ensures |old(posters)| == MaxPosters && old(Synced()) ==>
                outcome == Evicted(old(posters)[0])
      ensures |old(posters)| == MaxPosters && !old(Synced()) ==>
                outcome == EvictionFault(old(posters)[0]) && scene == old(scene) + [Poster(old(created), position)]
      ensures old(Synced()) ==> Synced()
    {
      var poster := Poster(created, position);
      assert IsSuffix(scene + [poster], posters + [poster]);
      created := created + 1;
      scene := scene + [poster];
      posters := posters + [poster];
      if |posters| > MaxPosters {
        var oldest := posters[0];
        SuffixHoldsHead(scene, posters, created);
        posters := posters[1..];
        if oldest in scene {
          scene := Without(scene, oldest);
          outcome := Evicted(oldest);
        } else {
          outcome := EvictionFault(oldest);
        }
      } else {
        outcome := Appended;
      }
    }

    /**
     * A-Frame renders the scene: three.js rebuilds the reticle's `object3D.matrix` from the
     * `position` attribute the last frame set. Renders follow A-Frame's own loop, not the XR
     * frames, so a tap may come between a frame and the next render.
     */
    method Render()
      modifies this`reticleMatrix
      ensures reticleMatrix == reticlePosition
    {
      reticleMatrix := reticlePosition;
    }

    /**
     * A tap (`select`): when the reticle is visible, a poster is placed at the translation
     * of its `object3D.matrix`, as of the last render; otherwise nothing happens.
     */
    method OnSelect() returns (r: Option<Outcome>)
      requires Valid()
      modifies this`posters, this`scene, this`created
      ensures Valid()
      ensures !reticleVisible ==>
                r == None && posters == old(posters) && scene == old(scene) && created == old(created)
      ensures reticleVisible ==>
                r.Some? && created == old(created) + 1 &&
                posters == Pushed(old(posters), Poster(old(created), reticleMatrix))
      ensures reticleVisible && |old(posters)| < MaxPosters ==>
                r == Some(Appended) && scene == old(scene) + [Poster(old(created), reticleMatrix)]
      ensures reticleVisible && |old(posters)| == MaxPosters ==>
                r == Some(if old(Synced()) then Evicted(old(posters)[0]) else EvictionFault(old(posters)[0]))
      ensures reticleVisible && |old(posters)| == MaxPosters && !old(Synced()) ==>
                scene == old(scene) + [Poster(old(created), reticleMatrix)]
      ensures old(Synced()) ==> Synced()
    {
      if reticleVisible {
        var outcome := AddPosterAt(reticleMatrix);
        r := Some(outcome);
      } else {
        r := None;
      }
    }

    /**
     * The session's `end` handler as written: AR goes off, which unmounts the scene, and
     * the session is dropped; the poster list is kept.
     */
    method OnSessionEndAsWritten()
      requires Valid()
      modifies this`arActive, this`session, this`scene
      ensures Valid()
      ensures !arActive && !session && scene == [] && posters == old(posters)
    {
      arActive, session := false, false;
      scene := [];
    }

    /**
     * The `end` handler with the poster list cleared as well, since the scene that held
     * those posters is unmounted with the session; the next scene then starts in step.
     */
    method OnSessionEnd()
      requires Valid()
      modifies this`arActive, this`session, this`scene, this`posters
      ensures Valid() && Synced()
      ensures !arActive && !session && scene == [] && posters == []
    {
      arActive, session := false, false;
      scene := [];
      posters := [];
    }
  }

  /**
   * With the `end` handler as written, one poster placed in a first session stays in the
   * list; the tenth placement of a second session then evicts it from a scene that does
   * not hold it, and `removeChild` throws. The poster positions play no part, so no render
   * is needed between the frame and the taps.
   */
  method RestartEvictionFaults() returns (r: Option<Outcome>)
    ensures r.Some? && r.value.EvictionFault?
  {
    WallHitPasses();
    var s := new PosterSession();
    s.StartAr(true);
    s.OnXRFrame([WallHit], true);
    assert s.reticleVisible;
    r := s.OnSelect();
    s.OnSessionEndAsWritten();
    s.StartAr(true);
    s.OnXRFrame([WallHit], true);
    assert s.reticleVisible;
    var n := 1;
    while n < MaxPosters
      invariant 1 <= n <= MaxPosters
      invariant s.Valid() && s.reticleVisible
      invariant |s.posters| == n && |s.scene| == n - 1
    {
      r := s.OnSelect();
      n := n + 1;
    }
    r := s.OnSelect();
  }

  /**
   * With the poster list cleared at session end, the second session fills the list with ten
   * taps, and its eleventh tap evicts the oldest poster of that session cleanly.
   */
  method RestartEvictsCleanly() returns (r: Option<Outcome>)
    ensures r.Some? && r.value.Evicted?
  {
    WallHitPasses();
    var s := new PosterSession();
    s.StartAr(true);
    s.OnXRFrame([WallHit], true);
    assert s.reticleVisible;
    r := s.OnSelect();
    s.OnSessionEnd();
    s.StartAr(true);
    s.OnXRFrame([WallHit], true);
    assert s.reticleVisible;
    var n := 0;
    while n < MaxPosters
      invariant 0 <= n <= MaxPosters
      invariant s.Valid() && s.Synced() && s.reticleVisible
      invariant |s.posters| == n
    {
      r := s.OnSelect();
      n := n + 1;
    }
    r := s.OnSelect();
  }

  /**
   * A tap after a frame that moved the reticle, but before the next render, places the
   * poster where the reticle was drawn, not where the frame found the wall.
   */
  method TapBeforeRender(earlier: Vec3, later: Vec3) returns (placed: Vec3)
    ensures placed == earlier
  {
    var s := new PosterSession();
    s.StartAr(true);
    s.OnXRFrame([Hit(earlier, WallHit.orientation)], true);
    s.Render();
    s.OnXRFrame([Hit(later, WallHit.orientation)], true);
    var r := s.OnSelect();
    placed := s.posters[|s.posters| - 1].position;
  }

  /** With a render between the frame and the tap, the poster goes to the wall hit the frame found. */
  method TapAfterRender(earlier: Vec3, later: Vec3) returns (placed: Vec3)
    ensures placed == later
  {
    var s := new PosterSession();
    s.StartAr(true);
    s.OnXRFrame([Hit(earlier, WallHit.orientation)], true);
    s.Render();
    s.OnXRFrame([Hit(later, WallHit.orientation)], true);
    s.Render();
    var r := s.OnSelect();
    placed := s.posters[|s.posters| - 1].position;
  }

  /**
   * With the loop as written, a frame whose only hit is `FloorHit` shows the reticle, and a
   * frame whose only hit is `WallHit` hides it: a tap then places a poster on that floor and
   * none on that wall.
   */
  method FloorShowsReticleAsWritten() returns (onFloor: bool, onWall: bool)
    ensures onFloor && !onWall
  {
    OrientationFilterMisjudges();
    var s := new PosterSession();
    s.StartAr(true);
    s.OnXRFrameAsWritten([FloorHit], true);
    onFloor := s.reticleVisible;
    s.OnXRFrameAsWritten([WallHit], true);
    onWall := s.reticleVisible;
  }

  /** With the filter on the surface normal, the same frames hide the reticle on the floor and show it on the wall. */
  method WallShowsReticle() returns (onFloor: bool, onWall: bool)
    ensures !onFloor && onWall
  {
    OrientationFilterMisjudges();
    var s := new PosterSession();
    s.StartAr(true);
    s.OnXRFrame([FloorHit], true);
    onFloor := s.reticleVisible;
    s.OnXRFrame([WallHit], true);
    assert s.reticleVisible;
    onWall := s.reticleVisible;
  }
}
