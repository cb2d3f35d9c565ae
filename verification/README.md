# Whacky-Tacky-Turnstile in Dafny

A model of `wall.js`, a Three.js page that shows a ground plane, a turnstile
and the first cube of a planned wall. The model covers:

- the hand-built box geometry: the door panel of `buildTurnstileDoor` and the
  cube of `initGeom`. Each is eight integer vertices and twelve triangles
  given by vertex-index triples.
- the colour loop of `initGeom`. It draws one random colour on every even
  face index and gives it to that face and the next one.
- the turnstile group of `buildTurnstile`: a pole, a door, and a clone of
  the door turned a quarter turn about the vertical axis. The group is
  lifted to height 90.
- the placement of the first cube by `buildFirstCube`. The cube's geometry
  is centred on the turnstile's position, and its mesh's x is then set to
  the turnstile's x plus 60. The cube's centre therefore lands at
  x = 2 * turnstile.x + 60, which is 60 units right of the turnstile only
  because the turnstile sits at x = 0.
- the start-up sequence `init(); draw(); renderScene();`.
- the key handler `onDocumentKeyDown`. Key code 81 ('q') turns the
  turnstile group by pi/20 about y. Every key event paints one frame.

Modelling choices:

- Every angle is an integer count of pi/20 steps. A quarter turn (pi/2) is
  10 steps.
- Colours are 24-bit hex values. The values `Math.random()` would produce
  are an input sequence of colours.
- The program's global variables become an `AppState` record. Each call of
  the renderer appends a `Frame` recording the scene and camera it painted.
- `turnstile` is `Undefined` until `buildTurnstile` assigns it. `initGeom`
  reads `turnstile.position`, which throws a TypeError while the global is
  undefined; the model returns `TypeError` in that case.
- A clone of a mesh shares geometry and material and copies the transform.
  With value semantics that is the same `Node` value.

Files:

- `geometry.dfy` (module `Geometry`): vertices, faces, geometries, the
  closedness predicate and the box-side predicates.
- `box.dfy` (module `Box`): a reference box. Corner i lies at the centre
  plus or minus each half-extent. Each side is a quad split along one
  diagonal into two triangles. Both the door and the cube are proved to be
  instances of it.
- `scenegraph.dfy` (module `SceneGraph`): transforms, materials and
  scene-graph nodes.
- `jsvalues.dfy` (module `JsValues`): `undefined` and TypeError outcomes.
- `turnstile.dfy` (module `Turnstile`): door, pole and turnstile group.
- `cube.dfy` (module `FirstCube`): cube vertices, faces, colouring and
  placement.
- `app.dfy` (module `App`): camera, start-up, key handler and key
  sequences.

The code and the file's header comment disagree, and the model follows the
code:

- The header promises keys 'p', 'r', '0', '1' and '2'. The handler reacts to
  'q' only, so every other key is a no-op apart from the repaint.
- `buildWall` has an empty body, so no wall grid exists. Only the first
  cube is built.
- The index lists in the code cover the sides in this order: -z (back),
  +z (front), +y (top), +x (right), -y (bottom) and -x (left). That order
  is `Geometry.SideLayout`.

## Model

| member | source | states |
|---|---|---|
| Turnstile.DoorVertices | wall.js:162-171 | The door's eight corners are the reference box with half-extents 40, 80 and 5 about the origin. Corners 0..3 lie at z = -5, and corner i+4 is corner i with z = 5. |
| Turnstile.DoorFaces | wall.js:173-190 | The door's twelve triangles are the reference box triangulation: each side's quad p-q-r-s is split into p-q-r and r-s-p. Every face keeps the white colour of a fresh Face3. |
| Turnstile.DoorGeometry | wall.js:161-190 | The door geometry has 8 vertices and 12 faces. Every face index is below 8. Each triangle pair 2k, 2k+1 lies on one extreme side of the box, in the order of `SideLayout`. |
| Turnstile.BuildTurnstileDoor | wall.js:159-200 | The door mesh is exactly the 40/80/5 door geometry with the grey 0xcccccc material. It is drawn double-sided with the material colour, not per-face colours, and sits unturned at its parent's origin. |
| Turnstile.BuildTurnstile | wall.js:132-145 | The group holds pole, door and door-clone in that order. It sits at (0, 90, 0) and is unturned. The clone differs from the first door only by a quarter turn about y, so in world terms the doors face 0 and a quarter turn. |
| Turnstile.TurnKeepsDoorsRigid | wall.js:136-142 | Turning the group by any amount leaves the children unchanged and keeps the turnstile shape. Every child's world yaw moves by that same amount, so the doors stay a quarter turn apart. |
| Turnstile.DoorsQuarterTurnApart | wall.js:136-138 | In any turnstile the two doors share one geometry, material and position. Their world yaws differ by exactly a quarter turn. |
| SceneGraph.TurnY | wall.js:297 | Turning a node about y changes its y rotation by exactly the given steps. Its shape, position and x rotation are unchanged. |
| Box.BoxIsBoxMesh | wall.js:173-190 | Any face list with the box triangulation over the corners of a box with non-negative half-extents gives a closed 8-vertex, 12-triangle box. The corners of every triangle pair lie on the side `SideLayout` names. |
| Box.QuadOnSide | wall.js:256-273 | The four corners of quad k share the coordinate of side k. No corner of the box lies beyond that coordinate. |
| Box.FrontMirrorsBack | wall.js:237-254 | In any box, corners 0..3 lie on the back plane (centre z minus half-depth). Corner i+4 is corner i moved to the front plane. |
| FirstCube.CubeVertices | wall.js:229-254 | The cube's corners are the reference box with half-extent 20 about the turnstile position. Every coordinate differs from the matching origin coordinate by exactly 20. Corner i+4 is corner i moved from z = origin.z - 20 to z = origin.z + 20. |
| FirstCube.CubeFaces | wall.js:256-273 | The cube's twelve triangles are the reference box triangulation, all white before colouring. |
| FirstCube.SameTopologyAsDoor | wall.js:256-273 | The cube's index triples equal the door's, triangle for triangle. |
| FirstCube.ColourFacePairs | wall.js:275-283 | The loop consumes one draw per even index. Face i gets draw i/2, so triangles 2k and 2k+1 both get draw k. Every index triple is unchanged. |
| FirstCube.InitGeom | wall.js:229-284 | With the turnstile undefined, it throws a TypeError and draws nothing. Otherwise it draws exactly 6 colours and returns a closed box about the turnstile position, with the cube's triangulation and face i coloured with draw i/2. |
| FirstCube.BuildFirstCube | wall.js:210-227 | It fails exactly when the turnstile is undefined. Otherwise it returns a double-sided, per-face-coloured mesh of the cube geometry. Its vertices are the cube corners about the turnstile position and its triangles carry exactly the cube's index triples. The mesh's position is (turnstile x + 60, 0, 0) and it is unturned. |
| App.Startup | wall.js:68-115 | Start-up uses exactly 6 draws. The camera stands at (1, 1, 1) looking at the origin. The turnstile has its shape and is unturned, and the ground is the green plane of `BuildGround`. The first cube uses the double-sided, face-coloured cube material. Its placed corners are exactly the reference box of half-extent 20 centred at (60, 90, 0), and its triangles carry the cube's index triples. Its triangle pairs carry draws 0..5. Exactly one frame of that state has been painted. |
| Turnstile.BuildTurnstilePole | wall.js:147-157 | The pole is a straight cylinder at the group's origin. Its height is twice the group's lift, so its foot stands on the ground once the group is raised. It reaches beyond the door at top and bottom, and its radius equals the door's half-thickness. |
| App.BuildGround | wall.js:117-130 | The ground is a square green plane drawn from both sides. It sits at the origin and is turned a quarter turn about x, so it lies flat. |
| App.InitCamera | wall.js:80-92 | The initial camera stands on the positive diagonal x = y = z and looks at the origin. |
| App.RenderScene | wall.js:286-289 | A render appends exactly one frame holding the current scene and camera. It keeps the earlier frames and changes nothing else. |
| App.OnKeyDown | wall.js:291-302 | Key 81 increases the turnstile's y rotation by one pi/20 step. Any other key leaves the scene unchanged. Nothing else changes: camera, ground, cube, the turnstile's children, position and x rotation. Exactly one frame of the new state is appended. |
| App.RunAccumulates | wall.js:291-302 | After any key sequence, the turnstile has turned one step per 'q' in it. One frame has been painted per key, and earlier frames are kept. Everything else is as before. |
| App.RunKeepsTurnstileShape | wall.js:132-145 | A turnstile keeps its shape through any key sequence, and its doors stay a quarter turn apart. |
| App.OtherKeysChangeNothing | wall.js:293-299 | A key sequence without 'q' leaves scene and camera as they were. It only paints one frame per key. |
| App.PressingQ | wall.js:296-298 | Pressing 'q' n times turns the turnstile by exactly n steps and paints n frames. |

## Left out

- Three.js and browser plumbing is not modelled: `THREE.Scene`,
  `WebGLRenderer`, `renderer.setSize`, `document.body.appendChild` and
  `addEventListener` (wall.js:95-103). Rendering is recorded only as an
  appended frame.
- The pole and the ground keep only their constructor parameters.
  `CylinderGeometry` and `PlaneGeometry` build their vertex data in library
  code.
- The orthographic frustum and the aspect ratio `canvasWidth/canvasHeight`
  (wall.js:77-87) are floating-point values taken from the window size, so
  they are left out. The camera is its position and look-at target.
- `Math.random()` and the conversion of its scaled float to an integer hex
  colour inside `Color.setHex` are left out. The draws are given as colours.
- Angles are pi/20 step counts, not radians. World-space coordinates of
  turned meshes involve irrational sines and cosines, so they are not
  modelled. Rotation is modelled as composed yaw angles.
- App.Startup: its placed cube corners translate the vertices by the mesh
  position and ignore rotation. This is exact here because the cube is
  never rotated.
- FirstCube.ColourFacePairs: the loop's `color` variable starts undefined in
  JavaScript. The model starts it at white. Index 0 is even, so that value
  is never used.
- `buildWall` is an empty stub (wall.js:202-208), and the wall grid exists
  only as a plan. The keys 'p', 'r', '0', '1' and '2' appear only in the
  header comment (wall.js:7-16). Neither is modelled beyond the no-op the
  code performs.
