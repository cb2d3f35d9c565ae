/** The first wall cube (buildFirstCube and initGeom in wall.js): a box of
    edge 40 centred on the turnstile's position, with one freshly drawn
    colour per pair of triangles. The mesh is then placed at x equal to the
    turnstile's x plus 60, on top of the geometry's own offset, so the cube's
    centre lands at x = 2 * turnstile.x + 60: 60 units right of the
    turnstile only because the turnstile sits at x = 0. Math.random() is
    replaced by a sequence of drawn colours. */
module FirstCube {
  import opened Geometry
  import opened SceneGraph
  import opened JsValues
  import Box
  import Turnstile

  /** Half the cube's edge (wall.js:235). */
  const Offset: int := 20

  /** How far right of the turnstile the cube mesh is placed (wall.js:224). */
  const CubeShift: int := 60

  /** One colour is drawn for each pair of the cube's twelve triangles. */
  const PairCount: nat := 6

  /** Double-sided, coloured per face; the base colour stays the default white
      (wall.js:219-220). */
  const CubeMaterial: Material := Material(White, true, true)

  /** The cube's corners (wall.js:237-254), each `origin` plus or minus the
      offset on every axis. */
  function CubeVertices(origin: Vec3): (vs: seq<Vec3>)
    ensures vs == Box.BoxVertices(origin, Vec3(Offset, Offset, Offset))
    ensures |vs| == 8
    ensures forall i :: 0 <= i < |vs| ==>
      Abs(vs[i].x - origin.x) == Offset && Abs(vs[i].y - origin.y) == Offset
      && Abs(vs[i].z - origin.z) == Offset
    ensures forall i :: 0 <= i < 4 ==>
      vs[i].z == origin.z - Offset && vs[i + 4] == vs[i].(z := origin.z + Offset)
  {
    var (x, y, z) := (origin.x, origin.y, origin.z);
    var offset := 20;
    var vs := [
      Vec3(x - offset, y + offset, z - offset),
      Vec3(x + offset, y + offset, z - offset),
      Vec3(x + offset, y - offset, z - offset),
      Vec3(x - offset, y - offset, z - offset),
      Vec3(x - offset, y + offset, z + offset),
      Vec3(x + offset, y + offset, z + offset),
      Vec3(x + offset, y - offset, z + offset),
      Vec3(x - offset, y - offset, z + offset)];
    Box.CornersAreBox(vs, origin, Vec3(Offset, Offset, Offset));
    Box.FrontMirrorsBack(origin, Vec3(Offset, Offset, Offset));
    vs
  }

  /** The cube's twelve triangles before colouring (wall.js:256-273);
      wall.js writes out the door's index list a second time. */
  function CubeFaces(): (fs: seq<Face>)
    ensures Topology(fs) == Box.BoxTopology
    ensures forall i :: 0 <= i < |fs| ==> fs[i].color == White
  {
    var fs := [
      Tri(0, 1, 2), Tri(2, 3, 0),
      Tri(4, 5, 6), Tri(6, 7, 4),
      Tri(0, 1, 5), Tri(5, 4, 0),
      Tri(5, 1, 2), Tri(2, 6, 5),
      Tri(7, 6, 2), Tri(2, 3, 7),
      Tri(0, 4, 7), Tri(7, 3, 0)];
    Box.BoxTopologyValue();
    fs
  }

  /** The colouring loop (wall.js:275-283): on every even index a colour is
      drawn, and that colour is given to the face at that index and to the
      one after it. Only colours change; every index triple is kept. */
  method ColourFacePairs(faces: seq<Face>, draws: seq<Color>) returns (coloured: seq<Face>, used: nat)
    requires |draws| >= (|faces| + 1) / 2
    ensures used == (|faces| + 1) / 2
    ensures |coloured| == |faces|
    ensures forall i :: 0 <= i < |faces| ==> coloured[i] == faces[i].(color := draws[i / 2])
    ensures Topology(coloured) == Topology(faces)
    ensures forall k :: 0 <= k && 2 * k + 1 < |faces| ==>
      coloured[2 * k].color == coloured[2 * k + 1].color == draws[k]
  {
    coloured := faces;
    used := 0;
    // `var color;` starts undefined; index 0 is even, so a colour is always
    // drawn before it is first read and this initial value is never used.
    var color: Color := White;
    var i := 0;
    while i < |faces|
      invariant 0 <= i <= |faces|
      invariant used == (i + 1) / 2
      invariant i % 2 == 1 ==> color == draws[i / 2]
      invariant |coloured| == |faces|
      invariant forall j :: 0 <= j < i ==> coloured[j] == faces[j].(color := draws[j / 2])
      invariant forall j :: i <= j < |faces| ==> coloured[j] == faces[j]
    {
      if i % 2 == 0 {
        assert i / 2 == used;
        color := draws[used];
        used := used + 1;
      }
      assert color == draws[i / 2];
      coloured := coloured[i := coloured[i].(color := color)];
      i := i + 1;
    }
    assert forall j :: 0 <= j < |faces| ==> Topology(coloured)[j] == Topology(faces)[j];
    forall k | 0 <= k && 2 * k + 1 < |faces|
      ensures coloured[2 * k].color == coloured[2 * k + 1].color == draws[k]
    {
      assert (2 * k) / 2 == k && (2 * k + 1) / 2 == k;
    }
  }

  /** initGeom: reads the turnstile's position, which throws while the global
      `turnstile` is still undefined; otherwise builds the coloured cube. */
  method InitGeom(turnstile: Option<Node>, draws: seq<Color>) returns (r: Result<Geometry>, used: nat)
    requires |draws| >= PairCount
    ensures turnstile.Undefined? <==> r.TypeError?
    ensures turnstile.Undefined? ==> used == 0
    ensures turnstile.Defined? ==> used == PairCount
    ensures r.Ok? ==>
      var g := r.value;
      IsBoxMesh(g)
      && g.vertices == CubeVertices(turnstile.value.xf.position)
      && Topology(g.faces) == Topology(CubeFaces())
      && forall i :: 0 <= i < |g.faces| ==> g.faces[i].color == draws[i / 2]
  {
    if turnstile.Undefined? {
      return TypeError, 0;
    }
    var origin := turnstile.value.xf.position;
    var vertices := CubeVertices(origin);
    var faces;
    faces, used := ColourFacePairs(CubeFaces(), draws);
    Box.BoxIsBoxMesh(origin, Vec3(Offset, Offset, Offset), faces);
    r := Ok(Geometry(vertices, faces));
  }

  /** buildFirstCube: the coloured cube as a mesh whose x position is the
      turnstile's x plus 60; its y and z positions keep their default 0. */
  method BuildFirstCube(turnstile: Option<Node>, draws: seq<Color>) returns (r: Result<Node>, used: nat)
    requires |draws| >= PairCount
    ensures turnstile.Undefined? <==> r.TypeError?
    ensures turnstile.Defined? ==> used == PairCount
    ensures r.Ok? ==>
      var tp := turnstile.value.xf.position;
      r.value.shape.Mesh?
      && r.value.shape.material == CubeMaterial
      && IsBoxMesh(r.value.shape.geometry)
      && r.value.shape.geometry.vertices == CubeVertices(tp)
      && Topology(r.value.shape.geometry.faces) == Topology(CubeFaces())
      && (forall i :: 0 <= i < 12 ==> r.value.shape.geometry.faces[i].color == draws[i / 2])
      && r.value.xf == Transform(Vec3(tp.x + CubeShift, 0, 0), 0, 0)
  {
    var g;
    g, used := InitGeom(turnstile, draws);
    if g.TypeError? {
      return TypeError, used;
    }
    var mesh := Node(Mesh(g.value, CubeMaterial), Identity);
    mesh := mesh.(xf := mesh.xf.(position := mesh.xf.position.(x := turnstile.value.xf.position.x + 60)));
    r := Ok(mesh);
  }

  /** The door and the cube are triangulated identically. */
  lemma SameTopologyAsDoor()
    ensures Topology(CubeFaces()) == Topology(Turnstile.DoorFaces())
  {
  }
}
