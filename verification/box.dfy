/** A reference description of an axis-aligned box, independent of the
    literal vertex and face lists in wall.js: corner i sits at the centre
    plus or minus each half-extent, and each side is a quad split along one
    diagonal into two triangles. The door and the cube are both shown to be
    instances of it. */
module Box {
  import opened Geometry

  /** Sign of corner i on each axis. Corners 0..3 are the back (-z) face,
      4..7 the front (+z) face, each walked top-left, top-right,
      bottom-right, bottom-left. */
  function XSign(i: nat): int { if i % 4 == 0 || i % 4 == 3 then -1 else 1 }
  function YSign(i: nat): int { if i % 4 < 2 then 1 else -1 }
  function ZSign(i: nat): int { if i < 4 then -1 else 1 }

  function Corner(c: Vec3, h: Vec3, i: nat): Vec3 {
    Vec3(c.x + XSign(i) * h.x, c.y + YSign(i) * h.y, c.z + ZSign(i) * h.z)
  }

  function BoxVertices(c: Vec3, h: Vec3): seq<Vec3> {
    seq(8, i requires 0 <= i < 8 => Corner(c, h, i))
  }

  /** A list of eight vertices that names each corner in turn is the box. */
  lemma CornersAreBox(vs: seq<Vec3>, c: Vec3, h: Vec3)
    requires |vs| == 8
    requires vs[0] == Corner(c, h, 0) && vs[1] == Corner(c, h, 1)
    requires vs[2] == Corner(c, h, 2) && vs[3] == Corner(c, h, 3)
    requires vs[4] == Corner(c, h, 4) && vs[5] == Corner(c, h, 5)
    requires vs[6] == Corner(c, h, 6) && vs[7] == Corner(c, h, 7)
    ensures vs == BoxVertices(c, h)
  {
  }

  /** Moving every corner of a box by `d` gives the box centred at `c + d`. */
  lemma TranslatedBox(c: Vec3, h: Vec3, d: Vec3)
    ensures seq(8, i requires 0 <= i < 8 => BoxVertices(c, h)[i].Plus(d)) == BoxVertices(c.Plus(d), h)
  {
  }

  /** The four corners of each side, in the order of `SideLayout`. */
  const BoxQuads: seq<(nat, nat, nat, nat)> :=
    [(0, 1, 2, 3), (4, 5, 6, 7), (0, 1, 5, 4), (5, 1, 2, 6), (7, 6, 2, 3), (0, 4, 7, 3)]

  /** A quad p-q-r-s becomes triangles p-q-r and r-s-p. */
  function Split(q: (nat, nat, nat, nat)): seq<(nat, nat, nat)> {
    [(q.0, q.1, q.2), (q.2, q.3, q.0)]
  }

  function Triangulate(quads: seq<(nat, nat, nat, nat)>): seq<(nat, nat, nat)> {
    if quads == [] then [] else Split(quads[0]) + Triangulate(quads[1..])
  }

  const BoxTopology: seq<(nat, nat, nat)> := Triangulate(BoxQuads)

  lemma BoxTopologyValue()
    ensures BoxTopology ==
      [(0, 1, 2), (2, 3, 0), (4, 5, 6), (6, 7, 4), (0, 1, 5), (5, 4, 0),
       (5, 1, 2), (2, 6, 5), (7, 6, 2), (2, 3, 7), (0, 4, 7), (7, 3, 0)]
  {
  }

  /** Corner j of quad k sits on side k of the box: it shares that side's
      coordinate, and no corner of the box lies beyond it. */
  lemma QuadOnSide(c: Vec3, h: Vec3, k: nat)
    requires h.x >= 0 && h.y >= 0 && h.z >= 0
    requires k < 6
    ensures var q, side := BoxQuads[k], SideLayout[k];
      var v := Coord(Corner(c, h, q.0), side.0);
      Coord(Corner(c, h, q.1), side.0) == v
      && Coord(Corner(c, h, q.2), side.0) == v
      && Coord(Corner(c, h, q.3), side.0) == v
      && Outermost(BoxVertices(c, h), side.0, side.1, v)
  {
  }

  /** Any geometry with the box's corners and the box's triangulation is a
      closed box whose triangle pairs lie on the sides in `SideLayout` order. */
  lemma {:induction false} BoxIsBoxMesh(c: Vec3, h: Vec3, faces: seq<Face>)
    requires h.x >= 0 && h.y >= 0 && h.z >= 0
    requires Topology(faces) == BoxTopology
    ensures IsBoxMesh(Geometry(BoxVertices(c, h), faces))
  {
    BoxTopologyValue();
    var g := Geometry(BoxVertices(c, h), faces);
    assert |faces| == 12 by { assert |Topology(faces)| == |faces|; }
    forall i | 0 <= i < 12
      ensures (faces[i].a, faces[i].b, faces[i].c) == BoxTopology[i]
    {
      assert Topology(faces)[i] == (faces[i].a, faces[i].b, faces[i].c);
    }
    assert Closed(g);
    forall k | 0 <= k < 6
      ensures PairOnSide(g, k, SideLayout[k].0, SideLayout[k].1)
    {
      QuadOnSide(c, h, k);
      var q := BoxQuads[k];
      assert (faces[2 * k].a, faces[2 * k].b, faces[2 * k].c) == (q.0, q.1, q.2);
      assert (faces[2 * k + 1].a, faces[2 * k + 1].b, faces[2 * k + 1].c) == (q.2, q.3, q.0);
      assert PairCorners(g, k) == [q.0, q.1, q.2, q.2, q.3, q.0];
      forall j | 0 <= j < 8 ensures g.vertices[j] == Corner(c, h, j) { }
    }
  }

  /** The front corners 4..7 repeat the back corners 0..3 with z moved from
      the back plane to the front plane. */
  lemma FrontMirrorsBack(c: Vec3, h: Vec3)
    ensures forall i :: 0 <= i < 4 ==>
      BoxVertices(c, h)[i].z == c.z - h.z
      && BoxVertices(c, h)[i + 4] == BoxVertices(c, h)[i].(z := c.z + h.z)
  {
  }
}
