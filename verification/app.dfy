/** The page's top-level flow in wall.js: set up the camera, build the scene
    (ground, turnstile, first cube), paint it once, and then react to every
    key press. The program's global variables become one application state
    record, and each call of the renderer is recorded as a painted frame. */
module App {
  import opened Geometry
  import opened SceneGraph
  import opened JsValues
  import opened Turnstile
  import opened FirstCube
  import Box

  /** The key code of 'q', the only key the handler reacts to (wall.js:293). */
  const KeyQ: int := 81

  /** How far one press of 'q' turns the turnstile: one pi/20 step. */
  const TurnStep: int := 1

  /** Where the camera stands and the point it looks at. The orthographic
      frustum is not part of the model. */
  datatype Camera = Camera(position: Vec3, target: Vec3)

  /** The scene's children in the order they are added. */
  datatype Scene = Scene(ground: Node, turnstile: Node, firstCube: Node) {
    function Children(): seq<Node> {
      [ground, turnstile, firstCube]
    }
  }

  /** What one renderer.render call painted. */
  datatype Frame = Frame(scene: Scene, camera: Camera)

  datatype AppState = AppState(scene: Scene, camera: Camera, frames: seq<Frame>)

  /** The camera of init(): the default position moved by one along each
      axis, then turned to look at the origin (wall.js:89-92). */
  function InitCamera(): (cam: Camera)
    ensures cam.target == Origin
    ensures cam.position.x == cam.position.y == cam.position.z > 0
  {
    var p := Origin;
    Camera(Vec3(p.x + 1, p.y + 1, p.z + 1), Origin)
  }

  /** A green 600 by 600 plane, drawn from both sides and laid flat by a
      quarter turn about x (wall.js:117-130). */
  function BuildGround(): (g: Node)
    ensures g.shape.Plane? && g.shape.width == g.shape.height
    ensures g.shape.material.doubleSided && g.shape.material.color == 0x00_ff00
    ensures g.xf.position == Origin && g.xf.rotX == QuarterTurn && g.xf.rotY == 0
  {
    Node(Plane(600, 600, Material(0x00_ff00, true, false)), Identity.(rotX := QuarterTurn))
  }

  /** renderScene: paints the current scene with the current camera. */
  function RenderScene(s: AppState): (s': AppState)
    ensures s'.scene == s.scene && s'.camera == s.camera
    ensures |s'.frames| == |s.frames| + 1 && s'.frames[..|s.frames|] == s.frames
    ensures s'.frames[|s.frames|] == Frame(s.scene, s.camera)
  {
    s.(frames := s.frames + [Frame(s.scene, s.camera)])
  }

  /** The mesh's vertices moved to where its transform places them. Only
      meaningful for a mesh that is not rotated. */
  function PlacedVertices(n: Node): seq<Vec3>
    requires n.shape.Mesh?
  {
    var vs := n.shape.geometry.vertices;
    seq(|vs|, i requires 0 <= i < |vs| => vs[i].Plus(n.xf.position))
  }

  /** The script's start: init(), draw() and one renderScene(). The global
      `turnstile` is undefined until buildTurnstile assigns it, and
      buildFirstCube runs after that, so reading its position succeeds.
      buildWall has an empty body and contributes nothing. */
  method Startup(draws: seq<Color>) returns (s: AppState, used: nat)
    requires |draws| >= PairCount
    ensures used == PairCount
    ensures s.camera == Camera(Vec3(1, 1, 1), Origin)
    ensures TurnstileShape(s.scene.turnstile) && s.scene.turnstile.xf.rotY == 0
    ensures s.scene.ground == BuildGround()
    ensures s.scene.firstCube.shape.Mesh?
    ensures s.scene.firstCube.shape.material == CubeMaterial
    ensures IsBoxMesh(s.scene.firstCube.shape.geometry)
    ensures s.scene.firstCube.xf.rotX == 0 && s.scene.firstCube.xf.rotY == 0
    ensures PlacedVertices(s.scene.firstCube) == Box.BoxVertices(Vec3(CubeShift, TurnstileLift, 0), Vec3(Offset, Offset, Offset))
    ensures Topology(s.scene.firstCube.shape.geometry.faces) == Topology(CubeFaces())
    ensures var ws := PlacedVertices(s.scene.firstCube);
      |ws| == 8
      && forall i :: 0 <= i < 8 ==>
        Abs(ws[i].x - CubeShift) == Offset && Abs(ws[i].y - TurnstileLift) == Offset
        && Abs(ws[i].z) == Offset
    ensures forall k :: 0 <= k < 6 ==>
      s.scene.firstCube.shape.geometry.faces[2 * k].color == draws[k]
      && s.scene.firstCube.shape.geometry.faces[2 * k + 1].color == draws[k]
    ensures s.frames == [Frame(s.scene, s.camera)]
  {
    var turnstile: Option<Node> := Undefined;
    // init()
    var camera := InitCamera();
    // draw()
    var ground := BuildGround();
    turnstile := Defined(BuildTurnstile());
    var cube;
    cube, used := BuildFirstCube(turnstile, draws);
    s := AppState(Scene(ground, turnstile.value, cube.value), camera, []);
    // renderScene()
    s := RenderScene(s);
    Box.TranslatedBox(Vec3(0, TurnstileLift, 0), Vec3(Offset, Offset, Offset), Vec3(CubeShift, 0, 0));
    forall k | 0 <= k < 6
      ensures cube.value.shape.geometry.faces[2 * k].color == draws[k]
      ensures cube.value.shape.geometry.faces[2 * k + 1].color == draws[k]
    {
      assert (2 * k) / 2 == k && (2 * k + 1) / 2 == k;
    }
  }

  /** onDocumentKeyDown: 'q' turns the turnstile group one step about the
      vertical axis; every key then paints exactly one frame. */
  function OnKeyDown(s: AppState, keyCode: int): (s': AppState)
    ensures s'.camera == s.camera
    ensures s'.scene.ground == s.scene.ground && s'.scene.firstCube == s.scene.firstCube
    ensures s'.scene.turnstile.shape == s.scene.turnstile.shape
    ensures s'.scene.turnstile.xf.position == s.scene.turnstile.xf.position
    ensures s'.scene.turnstile.xf.rotX == s.scene.turnstile.xf.rotX
    ensures keyCode == KeyQ ==> s'.scene.turnstile.xf.rotY == s.scene.turnstile.xf.rotY + TurnStep
    ensures keyCode != KeyQ ==> s'.scene == s.scene
    ensures |s'.frames| == |s.frames| + 1 && s'.frames[..|s.frames|] == s.frames
    ensures s'.frames[|s.frames|] == Frame(s'.scene, s'.camera)
  {
    var s1 :=
      if keyCode == KeyQ
      then s.(scene := s.scene.(turnstile := TurnY(s.scene.turnstile, TurnStep)))
      else s;
    RenderScene(s1)
  }

  /** The state after handling `keys` in order. */
  function Run(s: AppState, keys: seq<int>): AppState
    decreases |keys|
  {
    if keys == [] then s else Run(OnKeyDown(s, keys[0]), keys[1..])
  }

  /** How many of `keys` are `code`. */
  function Presses(keys: seq<int>, code: int): nat {
    if keys == [] then 0 else (if keys[0] == code then 1 else 0) + Presses(keys[1..], code)
  }

  /** After any sequence of key presses the turnstile has turned one step per
      'q' and nothing else, one frame has been painted per press, and the
      ground, the cube and the camera are as they were. */
  lemma {:induction false} RunAccumulates(s: AppState, keys: seq<int>)
    ensures var s' := Run(s, keys);
      s'.scene.turnstile.xf.rotY == s.scene.turnstile.xf.rotY + Presses(keys, KeyQ) * TurnStep
      && s'.scene.turnstile.shape == s.scene.turnstile.shape
      && s'.scene.turnstile.xf.position == s.scene.turnstile.xf.position
      && s'.scene.turnstile.xf.rotX == s.scene.turnstile.xf.rotX
      && s'.scene.ground == s.scene.ground && s'.scene.firstCube == s.scene.firstCube
      && s'.camera == s.camera
      && |s'.frames| == |s.frames| + |keys| && s'.frames[..|s.frames|] == s.frames
    decreases |keys|
  {
    if keys != [] {
      var s1 := OnKeyDown(s, keys[0]);
      RunAccumulates(s1, keys[1..]);
      var s' := Run(s, keys);
      assert s' == Run(s1, keys[1..]);
      assert s'.frames[..|s.frames|] == s'.frames[..|s1.frames|][..|s.frames|];
    }
  }

  /** The turnstile keeps its shape through any key sequence: both doors stay
      a quarter turn apart however far the group has been turned. */
  lemma RunKeepsTurnstileShape(s: AppState, keys: seq<int>)
    requires TurnstileShape(s.scene.turnstile)
    ensures TurnstileShape(Run(s, keys).scene.turnstile)
    ensures WorldYaw(Run(s, keys).scene.turnstile, 2) - WorldYaw(Run(s, keys).scene.turnstile, 1) == QuarterTurn
  {
    RunAccumulates(s, keys);
  }

  /** Keys other than 'q' (including the 'p', 'r', '0', '1' and '2' of the
      file's header comment) change nothing but the painted frames. */
  lemma {:induction false} OtherKeysChangeNothing(s: AppState, keys: seq<int>)
    requires forall i :: 0 <= i < |keys| ==> keys[i] != KeyQ
    ensures Run(s, keys).scene == s.scene && Run(s, keys).camera == s.camera
    ensures |Run(s, keys).frames| == |s.frames| + |keys|
    decreases |keys|
  {
    if keys != [] {
      OtherKeysChangeNothing(OnKeyDown(s, keys[0]), keys[1..]);
    }
  }

  /** Pressing 'q' n times in any state turns the turnstile by exactly
      n steps and paints n more frames. */
  lemma PressingQ(s: AppState, n: nat)
    ensures var keys := seq(n, _ => KeyQ);
      Run(s, keys).scene.turnstile.xf.rotY == s.scene.turnstile.xf.rotY + n
      && |Run(s, keys).frames| == |s.frames| + n
  {
    var keys := seq(n, _ => KeyQ);
    RunAccumulates(s, keys);
    AllPresses(keys, KeyQ);
  }

  lemma {:induction false} AllPresses(keys: seq<int>, code: int)
    requires forall i :: 0 <= i < |keys| ==> keys[i] == code
    ensures Presses(keys, code) == |keys|
    decreases |keys|
  {
    if keys != [] {
      AllPresses(keys[1..], code);
    }
  }
}
