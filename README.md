# Wall-art AR: a Dafny model of the placement logic

The web app lets a shopper preview a framed picture or poster on their own wall. It does this in three ways, and the model has one Dafny module for each:

- **`ARPoster`**, in `ar_poster.dfy`: the WebXR poster view. On every XR frame, the reticle is shown at the first hit-test result that passes a filter meant to pick walls. As written, the filter tests the `y` component of the hit's orientation quaternion, not of its surface normal. Its verdict does not follow the surface's tilt: it passes some floors and rejects some walls, and also passes some walls and rejects some floors (Finding 4 under "## Findings"). A tap (`select`) places a poster where the reticle was last drawn, which is the translation of its matrix as of the last render. The poster elements are kept in a list of at most ten (`MAX_POSTERS`); placing an eleventh shifts the oldest off the list and removes it from the scene.
- **`ARView`**, in `ar_view.dfy`: the three.js WebXR frame view.
  - The animation loop puts the reticle at the first hit.
  - A controller `select` is meant to move the frame group to the reticle, and a held select to drag it. As written, both copy fields the loop never sets (Finding 2 under "## Findings").
  - A two-finger move scales the frame against the finger distance at the touch start and the scale saved at the last touch end. It sets the frame's z turn to the current finger angle.
- **`ARViewer`**, in `ar_viewer.dfy`: the screen-space fallback.
  - The frame is drawn at a fixed depth over the camera image.
  - The first press places it at (0, 0, -2). Later presses are meant to drag it at 0.01 units per pixel, with y inverted. As registered, every press places it again and moves do nothing (Finding 3 under "## Findings").
  - Buttons scale it by 1.2 or 0.8, clamped to [0.5, 3.0]. Other buttons turn it by a quarter of pi, or reset its scale, rotation and position.

Two more files hold shared values. `wrappers.dfy` has `Option`, which stands for JavaScript's `null`. `geometry.dfy` has the vectors and poses.

Each component's closure variables, refs, React state and the scene objects its handlers mutate are fields of one class. Each handler is a method with `modifies` and a full statement of the new state. The behaviour those methods promise is stated on pure functions, and lemmas relate them:

- the hit filter, `Passes` and `FirstPassing`, on the orientation's `y` as written and on the normal's `y` as meant;
- the bounded FIFO, `Pushed`, `PlaceAll` and `Newest`;
- the pinch scale, `PinchScale`;
- the clamped scale step, `Rescaled`;
- the pointer drag, `Dragged` and `DragAlong`.

Short scenario methods replay event sequences through the classes and state their outcome. Four pairs of them exhibit, as written and as corrected, the defects listed under "## Findings".

## Model

| member | source | states |
|---|---|---|
| ARPoster.FirstPassing | src/components/ARPoster.jsx:81-99 | the result is the least index whose hit passes the filter (\|orientation.y\| < 0.2 as written, \|normal.y\| < 0.2 as meant); it is `None` exactly when no hit passes |
| ARPoster.OrientationFilterMisjudges | src/components/ARPoster.jsx:83-85 | the identity orientation has normal y = 1 (a floor) and passes the filter as written; the orientation (1/2, 1/2, -1/2, 1/2) has normal y = 0 (a wall) and fails it; the normal filter judges both the other way; the filter as written also passes the wall (0.7, 0.1, 0.1, 0.7) and rejects the floor (0, 0.6, 0, 0.8), so its verdict does not follow the tilt |
| ARPoster.Pushed | src/components/ARPoster.jsx:131-135 | the new poster ends the list; a list of at most ten stays at most ten; below ten the poster is appended; at ten the oldest is dropped |
| ARPoster.Without | src/components/ARPoster.jsx:134 | the children list after a `removeChild` that succeeds: taking out the first child drops exactly that one, and a list without the poster is left as it is (the DOM call throws in that case, which `AddPosterAt` reports as `EvictionFault` instead) |
| ARPoster.NewestAbsorbs | src/components/ARPoster.jsx:131-135 | keeping the newest ten of a list and then appending more keeps the same newest ten as appending to the whole list |
| ARPoster.PushedIsNewest | src/components/ARPoster.jsx:131-135 | from a list of at most ten, one push equals keeping the newest ten of the list with the poster appended |
| ARPoster.PlaceAllKeepsNewest | src/components/ARPoster.jsx:131-135 | any run of placements leaves exactly the newest ten of all posters placed, in placement order |
| ARPoster.ElevenPlacements | src/components/ARPoster.jsx:131-135 | eleven placements from empty keep placements two to eleven, ten posters, with the first gone and the last present |
| ARPoster.SuffixHoldsHead | src/components/ARPoster.jsx:133-134 | a suffix of a list of distinct posters contains the list's oldest poster exactly when it is the whole list |
| ARPoster.PosterSession.constructor | src/components/ARPoster.jsx:7-12 | AR starts off with no session, and the poster list and the scene start empty and in step |
| ARPoster.PosterSession.StartAr | src/components/ARPoster.jsx:178 | from AR off, a fresh empty scene is mounted with a hidden reticle at the origin, and AR and the session follow whether the session was granted; from AR on, nothing changes; the list is never touched |
| ARPoster.PosterSession.OnXRFrameAsWritten | src/components/ARPoster.jsx:74-101 | the reticle is hidden first, then shown exactly when the viewer has a pose and some hit has \|orientation.y\| < 0.2, at the first such hit's position; otherwise it keeps its position |
| ARPoster.PosterSession.OnXRFrame | src/components/ARPoster.jsx:74-101 | the same loop filtering on the surface normal: the reticle is shown exactly when the viewer has a pose and some hit lies on a wall, at the first such hit; when every hit has \|normal.y\| >= 0.2 it stays hidden |
| ARPoster.PosterSession.AddPosterAt | src/components/ARPoster.jsx:114-135 | the list becomes `Pushed` of the new poster and stays bounded; at capacity, the oldest is evicted cleanly when the scene matched the list, and `removeChild` throws otherwise; a scene in step stays in step |
| ARPoster.PosterSession.Render | src/components/ARPoster.jsx:92 | a render rebuilds the reticle's matrix from the position the last frame set |
| ARPoster.PosterSession.OnSelect | src/components/ARPoster.jsx:59-64 | a tap places a poster exactly when the reticle is visible, at the translation of the reticle's matrix as of the last render, with `AddPosterAt`'s outcome and new list; below capacity, or when the eviction throws, the scene gains the new poster; a scene in step stays in step; otherwise it changes nothing |
| ARPoster.PosterSession.OnSessionEndAsWritten | src/components/ARPoster.jsx:54-57 | AR goes off, the session is dropped and the scene unmounts, but the poster list keeps its posters |
| ARPoster.PosterSession.OnSessionEnd | src/components/ARPoster.jsx:54-57 | as above, with the list cleared too, so the list and the scene end in step |
| ARPoster.RestartEvictionFaults | src/components/ARPoster.jsx:131-135 | with the end handler as written, one poster in a first session and eleven taps over both sessions make the last tap's eviction throw |
| ARPoster.RestartEvictsCleanly | src/components/ARPoster.jsx:131-135 | with the list cleared at session end, ten taps in the second session fill the list, and its eleventh tap evicts that session's oldest poster cleanly |
| ARPoster.TapBeforeRender | src/components/ARPoster.jsx:59-64 | a tap after a frame that moved the reticle, but before the next render, places the poster at the reticle's earlier position |
| ARPoster.TapAfterRender | src/components/ARPoster.jsx:59-64 | with a render between that frame and the tap, the poster goes to the wall hit the frame found |
| ARPoster.FloorShowsReticleAsWritten | src/components/ARPoster.jsx:81-99 | with the loop as written, a frame whose only hit is the identity-oriented floor shows the reticle, and a frame whose only hit is the wall (1/2, 1/2, -1/2, 1/2) hides it |
| ARPoster.WallShowsReticle | src/components/ARPoster.jsx:81-99 | with the filter on the normal, the same frames hide the reticle on the floor and show it on the wall |
| ARView.PinchScale | src/ARView.jsx:146-151 | the scale times the reference distance is the committed scale times the current distance; equal distances keep the scale; for a positive scale, spreading grows it and pinching shrinks it, each in both directions |
| ARView.PinchesCompose | src/ARView.jsx:159-166 | two pinches in a row, with the first scale committed at touch end, scale by the product of the two distance ratios |
| ARView.ArView.constructor | src/ARView.jsx:20-26 | no hit-test source, drag or pinch reference; committed scale 1 and rotation 0; reticle hidden; frame group visible at the identity pose with unit scale |
| ARView.ArView.OnSessionStart | src/ARView.jsx:111-123 | the hit-test source is marked requested |
| ARView.ArView.OnHitTestSource | src/ARView.jsx:114-116 | the hit-test source becomes available |
| ARView.ArView.OnSessionEnd | src/ARView.jsx:118-122 | the request flag and the source are cleared and the reticle is hidden |
| ARView.ArView.OnSelectStart | src/ARView.jsx:95-97 | a drag starts |
| ARView.ArView.OnSelectEnd | src/ARView.jsx:98-100 | the drag ends |
| ARView.ArView.OnSelect | src/ARView.jsx:101-107 | with the reticle shown, the frame takes the reticle's position and quaternion and is shown, which is the pose the reticle is drawn at when the two agree; with it hidden nothing changes |
| ARView.ArView.AnimationFrameAsWritten | src/ARView.jsx:173-193 | with a frame and a source, the reticle is drawn at the first hit or hidden when there is none, and a drag copies the reticle's position fields, which setting the matrix leaves unchanged |
| ARView.ArView.AnimationFrame | src/ARView.jsx:173-193 | the same loop with the hit pose also written to the reticle's position and quaternion: the reticle stays aligned, and a drag moves a visible frame to the hit |
| ARView.ArView.OnTouchStart | src/ARView.jsx:127-134 | two touches record the finger distance and angle as references; other counts change nothing |
| ARView.ArView.OnTouchMove | src/ARView.jsx:136-157 | two touches scale the frame uniformly by `PinchScale` against the references and set its z turn to the finger angle, leaving the rest of its pose; other counts change nothing |
| ARView.ArView.OnTouchEnd | src/ARView.jsx:159-166 | the frame's x scale and z turn become the committed references, and the reference distance is cleared |
| ARView.PlacementAsWritten | src/ARView.jsx:101-107 | with the loop as written, one hit followed by a select places the frame at the identity pose, whatever the hit |
| ARView.Placement | src/ARView.jsx:101-107 | with the decomposing loop, the same events place the frame at the hit |
| ARViewer.Clamp | src/components/ARViewer.jsx:290 | the result lies in [0.5, 3.0]; it is the input inside that range, 3.0 above it and 0.5 below it |
| ARViewer.Rescaled | src/components/ARViewer.jsx:288-291 | the new scale lies in [0.5, 3.0]; up from 2.5 or more gives 3.0 and down from 0.625 or less gives 0.5; from an in-range scale, up never shrinks it and down never grows it |
| ARViewer.UpThenDown | src/components/ARViewer.jsx:288-291 | away from the bounds, up then down gives 0.96 of the scale and does not restore it |
| ARViewer.DragTelescopes | src/components/ARViewer.jsx:204-224 | a run of moves, each re-basing the pointer origin, moves the frame by the pointer's total travel from the press to the last point |
| ARViewer.Viewer.constructor | src/components/ARViewer.jsx:16-23 | not placed, not dragging, scale 1, rotation 0, and the frame hidden at (0, 0, -2) |
| ARViewer.Viewer.HandlePlace | src/components/ARViewer.jsx:279-286 | the frame is placed, shown, and put at (0, 0, -2) |
| ARViewer.Viewer.Press | src/components/ARViewer.jsx:192-202 | the press point becomes the drag origin; an unplaced frame is placed at (0, 0, -2) without a drag; a placed frame starts a drag and stays put |
| ARViewer.Viewer.PressAsRegistered | src/components/ARViewer.jsx:231-239 | the registered listener reads the first render's `isPlaced`, so every press places the frame again at (0, 0, -2) |
| ARViewer.Viewer.Move | src/components/ARViewer.jsx:241-259 | while a placed frame is dragged, it moves by `Dragged` from the last pointer position, which becomes the new origin; otherwise nothing changes |
| ARViewer.Viewer.Release | src/components/ARViewer.jsx:226-228 | the drag ends |
| ARViewer.Viewer.HandleScale | src/components/ARViewer.jsx:288-296 | the scale state becomes `Rescaled` of the old one, and the frame shows it |
| ARViewer.Viewer.HandleRotate | src/components/ARViewer.jsx:298-305 | the rotation grows by pi/4 with no wrapping, and the frame shows it |
| ARViewer.Viewer.HandleReset | src/components/ARViewer.jsx:307-316 | scale 1, rotation 0, the frame back at (0, 0, -2), while placement and visibility stay |
| ARViewer.DragAsRegistered | src/components/ARViewer.jsx:170-185 | with the listeners as registered, press, release, press and move leave the frame at (0, 0, -2) wherever the pointer went |
| ARViewer.Drag | src/components/ARViewer.jsx:192-224 | with handlers that read the current state, the same events move the frame by the pointer travel, so any real travel moves it |
| ARViewer.EightTurns | src/components/ARViewer.jsx:298-305 | eight turns bring the rotation state to 2 pi, not back to 0 |

## Left out

- Camera access, `getUserMedia` and its fallback, video playback and their error messages are left out. No camera image is modelled. `ARViewer`'s state is modelled from the point where the scene and the frame exist.
- XR session negotiation, reference spaces and the WebGL layer are reduced to flags: the session in `PosterSession`, and the requested and available hit-test source in `ArView`. A failed `requestSession` is the `granted` flag of `StartAr`.
- `isSessionSupported`, the mobile check, and the loading of the A-Frame and gl-matrix scripts are left out. The model assumes AR is supported and both scripts have loaded.
- Scene construction and rendering are left out: geometry, materials, textures, GLTF loading, lights, cameras and `renderer.render`.
- `ARViewer`'s floating wobble (`animate`) is left out. It depends on the wall clock, and it only changes the frame's y turn.
- Poster rotation is left out. gl-matrix's `getTranslation` is a position. The `radToDeg` of quaternion components, at src/components/ARPoster.jsx:93-97 and 124-128, is not kept.
- Hit orientations are unit quaternions; `NormalYOf` relies on that and the model does not check it. Other orientations are modelled as Euler angles. three.js keeps a group's quaternion and Euler rotation in step, and the model does not represent that coupling.
- `Math.sqrt` and `Math.atan2` of the touch points are inputs. So are pointer coordinates. The model doesn't compute them.
- All arithmetic is on exact reals. IEEE rounding, `Infinity` and `NaN` are not modelled. `Math.PI` is the literal 3.141592653589793.
- ARView.ArView.OnTouchMove: requires a recorded reference distance greater than zero. At src/ARView.jsx:146 the source divides by it unguarded: a `null` reference gives `Infinity` or `NaN`, and so does a zero one. Neither floating-point result is modelled.
- ARPoster.PosterSession.OnXRFrameAsWritten: assumes `hit.getPose` returns a pose for every hit. If it returns `null`, src/components/ARPoster.jsx:83 throws after the reticle was hidden at :77 and before the next frame is requested at :103. The frame loop then stops, the reticle stays hidden, and no later tap places a poster. Hits are a sequence of poses, so the model cannot express that stop. ARPoster.PosterSession.OnXRFrame makes the same assumption.
- ARView.ArView.AnimationFrameAsWritten: assumes `hit.getPose` returns a pose for the first hit. If it returns `null`, src/ARView.jsx:182 throws inside the animation-loop callback. The model does not represent that exception. ARView.ArView.AnimationFrame makes the same assumption.
- ARPoster.PosterSession.AddPosterAt: assumes that `THREE`, which src/components/ARPoster.jsx uses at :94 and :125 without importing it, resolves to the global that A-Frame defines. If it does not resolve, :125 throws before `appendChild` at :129, and no poster is ever added.
- ARView.ArView.OnTouchStart: requires a non-negative distance, which is what `Math.sqrt` returns.
- ARView.PinchScale: does not clamp the scale. The source applies no bound at src/ARView.jsx:146-151, so the model applies no bound either.
- Component mounting and unmounting is not modelled: React rendering, effect cleanup and listener removal. Outside the session model, so are the buttons that open and close the views.
- ARButton, ImageDisplay, the AR utility helpers, the home page, the router and the build configuration are not part of this model.

## Findings

| source | as written | input that shows it | evidently intended | confidence | as-written member | corrected member |
|---|---|---|---|---|---|---|
| src/components/ARPoster.jsx:54-57 | The `end` handler turns AR off, which unmounts the `a-scene`. `postersRef` keeps the old session's posters, and the next session's scene starts empty. | Place one poster, end the session, start AR again, and tap ten times. The last tap shifts the old poster off the list. `removeChild` is called on a node the new scene does not hold, and it throws. | The poster list empties when its scene goes away, so eviction only removes posters the scene shows. | not executed | ARPoster.RestartEvictionFaults | ARPoster.RestartEvictsCleanly |
| src/ARView.jsx:182-185 | The reticle has `matrixAutoUpdate` off. The loop sets only `matrix.fromArray(...)`, and `select` and the drag copy `position` and `quaternion`, which never change from the identity. | A session with one hit at any pose followed by a select places the frame at the origin. | The frame goes where the reticle is drawn, at the hit pose. | not executed | ARView.PlacementAsWritten | ARView.Placement |
| src/components/ARViewer.jsx:170-185 | The canvas listeners are registered once, from the first render, and read that render's `isPlaced` and `isDragging`, which are both false. | Press, release, press again, then move. The second press places the frame again instead of starting a drag, and the move does nothing. | A press on a placed frame starts a drag, and moves follow the pointer. | not executed | ARViewer.DragAsRegistered | ARViewer.Drag |
| src/components/ARPoster.jsx:83-85 | The filter compares the `y` component of the hit pose's orientation quaternion with 0.2. The comment beside it says it selects walls by a surface normal with `y` near 0. | A hit with the identity orientation faces up (a floor) and passes. A hit with orientation (1/2, 1/2, -1/2, 1/2) has its normal on +X (a wall) and is rejected. | The filter tests the normal's `y`, 1 - 2(x² + z²) for a unit quaternion, so walls pass and floors do not. | not executed | ARPoster.FloorShowsReticleAsWritten | ARPoster.WallShowsReticle |
