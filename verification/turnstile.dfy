/** The turnstile of wall.js: a black pole and two grey door panels held in
    one group that is lifted above the ground. The second door is a copy of
    the first turned a quarter turn about the vertical axis. */
module Turnstile {
  import opened Geometry
  import opened SceneGraph
  import Box

  /** Height the turnstile group is raised to (wall.js:142). */
  const TurnstileLift: int := 90

  /** The door panel's corners (wall.js:162-171): a box of half-extents 40,
      80 and 5 centred on the origin, back face at z = -5, front at z = 5. */
  function DoorVertices(): (vs: seq<Vec3>)
    ensures vs == Box.BoxVertices(Origin, Vec3(40, 80, 5))
    ensures forall i :: 0 <= i < 4 ==> vs[i].z == -5 && vs[i + 4] == vs[i].(z := 5)
  {
    var vs := [
      Vec3(-40, 80, -5), Vec3(40, 80, -5), Vec3(40, -80, -5), Vec3(-40, -80, -5),
      Vec3(-40, 80, 5), Vec3(40, 80, 5), Vec3(40, -80, 5), Vec3(-40, -80, 5)];
    Box.CornersAreBox(vs, Origin, Vec3(40, 80, 5));
    Box.FrontMirrorsBack(Origin, Vec3(40, 80, 5));
    vs
  }

  /** The door panel's twelve triangles (wall.js:173-190), two per side. */
  function DoorFaces(): (fs: seq<Face>)
    ensures Topology(fs) == Box.BoxTopology
    ensures forall i :: 0 <= i < |fs| ==> fs[i].color == White
  {
    var fs := [
      Tri(0, 1, 2), Tri(2, 3, 0),
      Tri(4, 5, 6), Tri(6, 7, 4),
      Tri(0, 1, 5), Tri(5, 4, 0),
      Tri(5, 1, 2), Tri(2, 6, 5),
      Tri(7, 6, 2), Tri(2, 3, 7),
      Tri(0, 4, 7), Tri(7, 3, 0)];
    Box.BoxTopologyValue();
    fs
  }

  /** buildTurnstileDoor's geometry: a closed 8-vertex, 12-triangle box whose
      triangle pairs each lie on one of its six sides. */
  function DoorGeometry(): (g: Geometry)
    ensures IsBoxMesh(g)
    ensures g.vertices == DoorVertices() && g.faces == DoorFaces()
  {
    Box.BoxIsBoxMesh(Origin, Vec3(40, 80, 5), DoorFaces());
    Geometry(DoorVertices(), DoorFaces())
  }

  /** Grey, drawn from both sides (wall.js:192-194). */
  const DoorMaterial: Material := Material(0xcc_cccc, true, false)

  /** Black, default front side only (wall.js:151-152). */
  const PoleMaterial: Material := Material(0x00_0000, false, false)

  /** buildTurnstileDoor: the door box as a grey double-sided mesh at its
      parent's origin, unturned. */
  function BuildTurnstileDoor(): (d: Node)
    ensures d.shape == Mesh(DoorGeometry(), DoorMaterial)
    ensures IsBoxMesh(d.shape.geometry)
    ensures d.shape.material.color == 0xcc_cccc
    ensures d.shape.material.doubleSided && !d.shape.material.faceColors
    ensures d.xf.position == Origin && d.xf.rotX == 0 && d.xf.rotY == 0
  {
    Node(Mesh(DoorGeometry(), DoorMaterial), Identity)
  }

  /** A cylinder of radius 5 and height 180 at the group's origin. It is
      straight, as thick as the door panel, taller than the door at both
      ends, and exactly twice the lift, so once the group is raised the
      pole's foot stands on the ground plane y = 0. */
  function BuildTurnstilePole(): (p: Node)
    ensures p.shape.Cylinder? && p.shape.radiusTop == p.shape.radiusBottom
    ensures p.xf == Identity
    ensures p.shape.height == 2 * TurnstileLift
    ensures forall i :: 0 <= i < |DoorVertices()| ==>
      Abs(DoorVertices()[i].y) < p.shape.height / 2
      && Abs(DoorVertices()[i].z) == p.shape.radiusTop
  {
    Node(Cylinder(5, 5, 180, PoleMaterial), Identity)
  }

  /** The shape every turnstile keeps: pole, door, and the same door turned a
      further quarter turn, in that order, in a group raised to height 90
      and turned only about the vertical axis. */
  predicate TurnstileShape(t: Node) {
    t.IsGroup() && |t.shape.children| == 3
    && t.shape.children[0] == BuildTurnstilePole()
    && t.shape.children[1] == BuildTurnstileDoor()
    && t.shape.children[2] == TurnY(t.shape.children[1], QuarterTurn)
    && t.xf.position == Vec3(0, TurnstileLift, 0) && t.xf.rotX == 0
  }

  /** buildTurnstile: the second door is a clone of the first (same geometry
      and material, copied transform) whose y-rotation is then set to pi/2. */
  function BuildTurnstile(): (t: Node)
    ensures TurnstileShape(t)
    ensures t.xf.rotY == 0
    ensures WorldYaw(t, 1) == 0 && WorldYaw(t, 2) == QuarterTurn
  {
    var pole := BuildTurnstilePole();
    var door1 := BuildTurnstileDoor();
    var door2 := door1.(xf := door1.xf.(rotY := QuarterTurn));
    Node(Group([pole, door1, door2]), Identity.(position := Identity.position.(y := TurnstileLift)))
  }

  /** Turning the whole group keeps its shape: the doors keep their local
      transforms and geometry, both turn by the same amount in world terms,
      and so stay a quarter turn apart. */
  lemma TurnKeepsDoorsRigid(t: Node, steps: int)
    requires TurnstileShape(t)
    ensures TurnstileShape(TurnY(t, steps))
    ensures TurnY(t, steps).shape == t.shape
    ensures forall i :: 0 <= i < 3 ==> WorldYaw(TurnY(t, steps), i) == WorldYaw(t, i) + steps
    ensures WorldYaw(TurnY(t, steps), 2) - WorldYaw(TurnY(t, steps), 1) == QuarterTurn
  {
  }

  /** The two doors of any turnstile share one geometry and material and
      differ only by a quarter turn about the vertical axis. */
  lemma DoorsQuarterTurnApart(t: Node)
    requires TurnstileShape(t)
    ensures t.shape.children[2].shape == t.shape.children[1].shape
    ensures t.shape.children[1].shape == Mesh(DoorGeometry(), DoorMaterial)
    ensures t.shape.children[2].xf.position == t.shape.children[1].xf.position
    ensures WorldYaw(t, 2) - WorldYaw(t, 1) == QuarterTurn
  {
  }
}
