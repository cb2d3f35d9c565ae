/** Vertices, triangular faces and the geometry records that wall.js builds by
    hand with THREE.Vector3, THREE.Face3 and THREE.Geometry. All coordinates
    used by the program are integers, so a vertex is an integer triple. */
module Geometry {

  datatype Vec3 = Vec3(x: int, y: int, z: int) {
    function Plus(d: Vec3): Vec3 {
      Vec3(x + d.x, y + d.y, z + d.z)
    }
  }

  const Origin: Vec3 := Vec3(0, 0, 0)

  /** A colour as a 24-bit hex value 0xRRGGBB. */
  type Color = c: int | 0 <= c <= 0xff_ffff

  /** A freshly constructed Face3 carries a white colour. */
  const White: Color := 0xff_ffff

  /** A triangle: three indices into the owning geometry's vertex list, and a colour. */
  datatype Face = Face(a: nat, b: nat, c: nat, color: Color)

  /** A face as constructed by `new THREE.Face3(a, b, c)`. */
  function Tri(a: nat, b: nat, c: nat): Face {
    Face(a, b, c, White)
  }

  datatype Geometry = Geometry(vertices: seq<Vec3>, faces: seq<Face>)

  /** Every index of every face names an existing vertex. */
  predicate Closed(g: Geometry) {
    forall i :: 0 <= i < |g.faces| ==>
      g.faces[i].a < |g.vertices| && g.faces[i].b < |g.vertices| && g.faces[i].c < |g.vertices|
  }

  /** The index triples of a face list, colours dropped: the mesh's topology. */
  function Topology(faces: seq<Face>): seq<(nat, nat, nat)> {
    seq(|faces|, i requires 0 <= i < |faces| => (faces[i].a, faces[i].b, faces[i].c))
  }

  function Abs(n: int): nat {
    if n < 0 then -n else n
  }

  datatype Axis = X | Y | Z

  function Coord(v: Vec3, axis: Axis): int {
    match axis
    case X => v.x
    case Y => v.y
    case Z => v.z
  }

  /** Which extreme of an axis a box side lies on. */
  datatype Bound = Low | High

  /** No vertex lies beyond `value` on the `bound` end of `axis`. */
  predicate Outermost(vs: seq<Vec3>, axis: Axis, bound: Bound, value: int) {
    forall i :: 0 <= i < |vs| ==>
      if bound == High then Coord(vs[i], axis) <= value else value <= Coord(vs[i], axis)
  }

  /** The six vertex indices used by triangles 2k and 2k+1. */
  function PairCorners(g: Geometry, k: nat): (cs: seq<nat>)
    requires Closed(g) && 2 * k + 1 < |g.faces|
    ensures |cs| == 6
    ensures forall j :: 0 <= j < 6 ==> cs[j] < |g.vertices|
  {
    var f, f' := g.faces[2 * k], g.faces[2 * k + 1];
    [f.a, f.b, f.c, f'.a, f'.b, f'.c]
  }

  /** Triangles 2k and 2k+1 both lie in the plane where `axis` takes its
      extreme value on the `bound` end: they form one side of the box. */
  predicate PairOnSide(g: Geometry, k: nat, axis: Axis, bound: Bound)
    requires Closed(g) && 2 * k + 1 < |g.faces|
  {
    var cs := PairCorners(g, k);
    var v := Coord(g.vertices[cs[0]], axis);
    (forall j :: 0 <= j < 6 ==> Coord(g.vertices[cs[j]], axis) == v)
    && Outermost(g.vertices, axis, bound, v)
  }

  /** The side each triangle pair covers, in the order wall.js lists them:
      back (-z), front (+z), top (+y), right (+x), bottom (-y), left (-x). */
  const SideLayout: seq<(Axis, Bound)> :=
    [(Z, Low), (Z, High), (Y, High), (X, High), (Y, Low), (X, Low)]

  /** An 8-vertex, 12-triangle closed mesh in which the corners of each
      triangle pair lie on one outermost side, in the order of `SideLayout`.
      It says nothing about the corners being distinct: that the mesh is a
      proper box follows from its vertices being `Box.BoxVertices`. */
  predicate IsBoxMesh(g: Geometry) {
    |g.vertices| == 8 && |g.faces| == 12 && Closed(g)
    && forall k :: 0 <= k < 6 ==> PairOnSide(g, k, SideLayout[k].0, SideLayout[k].1)
  }
}
