/** The part of the Three.js scene graph wall.js uses: planes, cylinders,
    meshes and groups, each with a local transform. Angles are counted in
    steps of pi/20 radians, the increment the key handler applies, so every
    angle the program sets is an integer. */
module SceneGraph {
  import opened Geometry

  /** pi/2 radians in steps of pi/20. */
  const QuarterTurn: int := 10

  /** Local position and rotations about the x and y axes, in pi/20 steps.
      The program never rotates about z. */
  datatype Transform = Transform(position: Vec3, rotX: int, rotY: int)

  /** The transform a fresh Object3D starts with. */
  const Identity: Transform := Transform(Origin, 0, 0)

  /** A MeshBasicMaterial: base colour, whether both sides are drawn, and
      whether the per-face colours are used instead of the base colour. */
  datatype Material = Material(color: Color, doubleSided: bool, faceColors: bool)

  /** What a scene-graph node draws, or for a group, the nodes it holds. */
  datatype Shape =
    | Plane(width: nat, height: nat, material: Material)
    | Cylinder(radiusTop: nat, radiusBottom: nat, height: nat, material: Material)
    | Mesh(geometry: Geometry, material: Material)
    | Group(children: seq<Node>)

  /** An Object3D: what it is, and where it sits relative to its parent. */
  datatype Node = Node(shape: Shape, xf: Transform) {
    predicate IsGroup() { shape.Group? }
  }

  /** Rotation of child i about the vertical axis in world terms: the group's
      rotation composed with the child's own. */
  function WorldYaw(group: Node, i: nat): int
    requires group.IsGroup() && i < |group.shape.children|
  {
    group.xf.rotY + group.shape.children[i].xf.rotY
  }

  /** Turns a node about the vertical axis by `steps`, leaving its children,
      position and geometry alone. */
  function TurnY(n: Node, steps: int): (n': Node)
    ensures n'.xf.rotY - n.xf.rotY == steps
    ensures n'.xf.position == n.xf.position && n'.xf.rotX == n.xf.rotX
    ensures n'.shape == n.shape
  {
    n.(xf := n.xf.(rotY := n.xf.rotY + steps))
  }
}
