/**
  The flat-faced primitives paintGL draws from fixed coordinates: Plane, Cube,
  Pyramid and Wedge. Each is a list of faces, a face being the normal given for
  lighting and the polygon's vertices, in the object's local frame where the
  solid fills the cube [-0.5, 0.5]^3.
 */
module Primitives {

  datatype Point = Point(x: real, y: real, z: real)

  datatype Face = Face(normal: Point, vertices: seq<Point>)

  function Dot(a: Point, b: Point): real {
    a.x * b.x + a.y * b.y + a.z * b.z
  }

  function Minus(a: Point, b: Point): Point {
    Point(a.x - b.x, a.y - b.y, a.z - b.z)
  }

  /* ---------------------------------------------------------------- the tables */

  const PlaneQuad: Face :=
    Face(Point(0.0, 1.0, 0.0), [Point(0.5, 0.0, -0.5), Point(0.5, 0.0, 0.5), Point(-0.5, 0.0, 0.5), Point(-0.5, 0.0, -0.5)])

  /** Case 0: one quad in the plane y = 0, normal +Y. */
  const PlaneFaces: seq<Face> := [PlaneQuad]

  /** The cube's bottom quad, also the base of the pyramid and of the wedge. */
  const Bottom: Face :=
    Face(Point(0.0, -1.0, 0.0), [Point(0.5, -0.5, -0.5), Point(0.5, -0.5, 0.5), Point(-0.5, -0.5, 0.5), Point(-0.5, -0.5, -0.5)])

  const CubeFront: Face :=
    Face(Point(0.0, 0.0, -1.0), [Point(0.5, -0.5, -0.5), Point(0.5, 0.5, -0.5), Point(-0.5, 0.5, -0.5), Point(-0.5, -0.5, -0.5)])

  const CubeBack: Face :=
    Face(Point(0.0, 0.0, 1.0), [Point(0.5, -0.5, 0.5), Point(0.5, 0.5, 0.5), Point(-0.5, 0.5, 0.5), Point(-0.5, -0.5, 0.5)])

  /** The quad in x = 0.5, shared by the cube and the wedge. */
  const RightSide: Face :=
    Face(Point(1.0, 0.0, 0.0), [Point(0.5, -0.5, -0.5), Point(0.5, 0.5, -0.5), Point(0.5, 0.5, 0.5), Point(0.5, -0.5, 0.5)])

  const CubeLeft: Face :=
    Face(Point(-1.0, 0.0, 0.0), [Point(-0.5, -0.5, 0.5), Point(-0.5, 0.5, 0.5), Point(-0.5, 0.5, -0.5), Point(-0.5, -0.5, -0.5)])

  const CubeTop: Face :=
    Face(Point(0.0, 1.0, 0.0), [Point(0.5, 0.5, 0.5), Point(0.5, 0.5, -0.5), Point(-0.5, 0.5, -0.5), Point(-0.5, 0.5, 0.5)])

  /** Case 1: front, back, right, left, top, bottom. */
  const CubeFaces: seq<Face> :=
    [CubeFront, CubeBack, RightSide, CubeLeft, CubeTop, Bottom]

  /** The eight corners of the unit cube. */
  const CubeCorners: seq<Point> :=
    [Point(0.5, -0.5, -0.5), Point(0.5, -0.5, 0.5), Point(-0.5, -0.5, 0.5), Point(-0.5, -0.5, -0.5),
     Point(0.5, 0.5, -0.5), Point(0.5, 0.5, 0.5), Point(-0.5, 0.5, 0.5), Point(-0.5, 0.5, -0.5)]

  const Apex: Point := Point(0.0, 0.5, 0.0)

  /* The pyramid's four sides as the source draws them. */
  const PyramidRight: Face := Face(Point(0.5, 1.0, 0.0), [Point(0.5, -0.5, -0.5), Point(0.5, -0.5, 0.5), Apex])
  const PyramidBack: Face := Face(Point(0.0, 1.0, 0.5), [Point(0.5, -0.5, 0.5), Point(-0.5, -0.5, 0.5), Apex])
  const PyramidLeft: Face := Face(Point(-0.5, 1.0, 0.0), [Point(-0.5, -0.5, 0.5), Point(-0.5, -0.5, -0.5), Apex])
  const PyramidFront: Face := Face(Point(0.0, 1.0, -0.5), [Point(0.5, -0.5, -0.5), Point(-0.5, -0.5, -0.5), Apex])

  /** Case 5 as the source draws it: the bottom quad and four triangles up to the apex. */
  const PyramidFaces: seq<Face> :=
    [Bottom, PyramidRight, PyramidBack, PyramidLeft, PyramidFront]

  /* The same sides with normals perpendicular to them: in each normal the sideways part and the upward part trade places. */
  const CorrectedRight: Face := Face(Point(1.0, 0.5, 0.0), [Point(0.5, -0.5, -0.5), Point(0.5, -0.5, 0.5), Apex])
  const CorrectedBack: Face := Face(Point(0.0, 0.5, 1.0), [Point(0.5, -0.5, 0.5), Point(-0.5, -0.5, 0.5), Apex])
  const CorrectedLeft: Face := Face(Point(-1.0, 0.5, 0.0), [Point(-0.5, -0.5, 0.5), Point(-0.5, -0.5, -0.5), Apex])
  const CorrectedFront: Face := Face(Point(0.0, 0.5, -1.0), [Point(0.5, -0.5, -0.5), Point(-0.5, -0.5, -0.5), Apex])

  /** The pyramid with the corrected side normals. */
  const CorrectedPyramidFaces: seq<Face> :=
    [Bottom, CorrectedRight, CorrectedBack, CorrectedLeft, CorrectedFront]

  /** The four bottom corners and the apex. */
  const PyramidCorners: seq<Point> :=
    [Point(0.5, -0.5, -0.5), Point(0.5, -0.5, 0.5), Point(-0.5, -0.5, 0.5), Point(-0.5, -0.5, -0.5), Apex]

  const WedgeSlant: Face :=
    Face(Point(-1.0, 1.0, 0.0), [Point(0.5, 0.5, -0.5), Point(0.5, 0.5, 0.5), Point(-0.5, -0.5, 0.5), Point(-0.5, -0.5, -0.5)])

  const WedgeNear: Face :=
    Face(Point(0.0, 0.0, 1.0), [Point(0.5, -0.5, 0.5), Point(0.5, 0.5, 0.5), Point(-0.5, -0.5, 0.5)])

  const WedgeFar: Face :=
    Face(Point(0.0, 0.0, -1.0), [Point(0.5, -0.5, -0.5), Point(0.5, 0.5, -0.5), Point(-0.5, -0.5, -0.5)])

  /** Case 6: bottom, right, slant, and the two end triangles. */
  const WedgeFaces: seq<Face> :=
    [Bottom, RightSide, WedgeSlant, WedgeNear, WedgeFar]

  /** The four bottom corners and the two top corners above x = 0.5. */
  const WedgeCorners: seq<Point> :=
    [Point(0.5, -0.5, -0.5), Point(0.5, -0.5, 0.5), Point(-0.5, -0.5, 0.5), Point(-0.5, -0.5, -0.5),
     Point(0.5, 0.5, -0.5), Point(0.5, 0.5, 0.5)]

  /* ---------------------------------------------------------------- geometry */

  predicate InUnitCube(p: Point) {
    -0.5 <= p.x <= 0.5 && -0.5 <= p.y <= 0.5 && -0.5 <= p.z <= 0.5
  }

  /** Every vertex of the face lies in [-0.5, 0.5]^3. */
  predicate FaceInCube(f: Face) {
    forall v :: v in f.vertices ==> InUnitCube(v)
  }

  /** Every vertex of every face lies in [-0.5, 0.5]^3. */
  predicate Bounded(faces: seq<Face>) {
    forall f :: f in faces ==> FaceInCube(f)
  }

  /** The face is a polygon (at least three vertices) in a plane its normal is perpendicular to. */
  predicate Flat(f: Face) {
    |f.vertices| >= 3 && forall v :: v in f.vertices ==> Dot(f.normal, v) == Dot(f.normal, f.vertices[0])
  }

  /** No vertex of the solid lies beyond the face's plane in the direction of its normal. */
  predicate PointsOutward(faces: seq<Face>, f: Face)
    requires |f.vertices| >= 1
  {
    forall g, v :: g in faces && v in g.vertices ==> Dot(f.normal, v) <= Dot(f.normal, f.vertices[0])
  }

  /** A convex solid given by its faces, each flat with an outward normal. */
  predicate ConvexWithOutwardNormals(faces: seq<Face>) {
    forall f :: f in faces ==> Flat(f) && PointsOutward(faces, f)
  }

  /** The face's vertices are among the corners. */
  predicate Uses(f: Face, corners: seq<Point>) {
    forall v :: v in f.vertices ==> v in corners
  }

  /** No corner lies beyond the face's plane in the direction of its normal. */
  predicate Beneath(f: Face, corners: seq<Point>)
    requires |f.vertices| >= 1
  {
    forall c :: c in corners ==> Dot(f.normal, c) <= Dot(f.normal, f.vertices[0])
  }

  /** The face is a good face of the solid with these corners: flat, inside the unit cube, with no corner beyond it. */
  predicate Fits(f: Face, corners: seq<Point>) {
    Flat(f) && FaceInCube(f) && Uses(f, corners) && Beneath(f, corners)
  }

  /** The edge from vertex k to the next one, the last vertex closing the polygon back to the first. */
  function Edge(vs: seq<Point>, k: nat): Point
    requires k < |vs|
  {
    Minus(vs[(k + 1) % |vs|], vs[k])
  }

  function Abs(r: real): real {
    if r < 0.0 then -r else r
  }

  /** One of the six unit vectors along the axes. */
  predicate AxisUnit(p: Point) {
    (p.x == 0.0 || Abs(p.x) == 1.0) && (p.y == 0.0 || Abs(p.y) == 1.0) && (p.z == 0.0 || Abs(p.z) == 1.0) &&
    Abs(p.x) + Abs(p.y) + Abs(p.z) == 1.0
  }

  /** A cube face: at distance 0.5 along an axis unit normal, and a face of the solid with the cube's eight corners. */
  predicate CubeSide(f: Face) {
    Fits(f, CubeCorners) && AxisUnit(f.normal) && Dot(f.normal, f.vertices[0]) == 0.5
  }

  /* ---------------------------------------------------------------- generic steps */

  /** Checking each face against the solid's list of corners is enough for the whole solid. */
  lemma SolidByCorners(faces: seq<Face>, corners: seq<Point>)
    requires forall f :: f in faces ==> Fits(f, corners)
    ensures Bounded(faces) && ConvexWithOutwardNormals(faces)
  {
    forall f | f in faces
      ensures Flat(f) && PointsOutward(faces, f)
    {
      assert Fits(f, corners);
      forall g, v | g in faces && v in g.vertices
        ensures Dot(f.normal, v) <= Dot(f.normal, f.vertices[0])
      {
        assert Fits(g, corners);
      }
    }
  }

  /** A solid of five faces each fitting its corners. */
  lemma Solid5(a: Face, b: Face, c: Face, d: Face, e: Face, corners: seq<Point>)
    requires Fits(a, corners) && Fits(b, corners) && Fits(c, corners) && Fits(d, corners) && Fits(e, corners)
    ensures Bounded([a, b, c, d, e]) && ConvexWithOutwardNormals([a, b, c, d, e])
  {
    SolidByCorners([a, b, c, d, e], corners);
  }

  /** A solid of six faces each fitting its corners. */
  lemma Solid6(a: Face, b: Face, c: Face, d: Face, e: Face, g: Face, corners: seq<Point>)
    requires Fits(a, corners) && Fits(b, corners) && Fits(c, corners) && Fits(d, corners) && Fits(e, corners)
    requires Fits(g, corners)
    ensures Bounded([a, b, c, d, e, g]) && ConvexWithOutwardNormals([a, b, c, d, e, g])
  {
    SolidByCorners([a, b, c, d, e, g], corners);
  }

  /** A quad whose last three vertices are at the first one's height along the normal is flat. */
  lemma FlatQuad(n: Point, a: Point, b: Point, c: Point, d: Point)
    requires Dot(n, b) == Dot(n, a) && Dot(n, c) == Dot(n, a) && Dot(n, d) == Dot(n, a)
    ensures Flat(Face(n, [a, b, c, d]))
  {
  }

  /** A triangle whose last two vertices are at the first one's height along the normal is flat. */
  lemma FlatTriangle(n: Point, a: Point, b: Point, c: Point)
    requires Dot(n, b) == Dot(n, a) && Dot(n, c) == Dot(n, a)
    ensures Flat(Face(n, [a, b, c]))
  {
  }

  /** Five corners, none beyond the face. */
  lemma Below5(f: Face, a: Point, b: Point, c: Point, d: Point, e: Point)
    requires |f.vertices| >= 1
    requires var h := Dot(f.normal, f.vertices[0]);
      Dot(f.normal, a) <= h && Dot(f.normal, b) <= h && Dot(f.normal, c) <= h && Dot(f.normal, d) <= h &&
      Dot(f.normal, e) <= h
    ensures Beneath(f, [a, b, c, d, e])
  {
  }

  /** Six corners, none beyond the face. */
  lemma Below6(f: Face, a: Point, b: Point, c: Point, d: Point, e: Point, g: Point)
    requires |f.vertices| >= 1
    requires var h := Dot(f.normal, f.vertices[0]);
      Dot(f.normal, a) <= h && Dot(f.normal, b) <= h && Dot(f.normal, c) <= h && Dot(f.normal, d) <= h &&
      Dot(f.normal, e) <= h && Dot(f.normal, g) <= h
    ensures Beneath(f, [a, b, c, d, e, g])
  {
  }

  /** Eight corners, none beyond the face. */
  lemma Below8(f: Face, a: Point, b: Point, c: Point, d: Point, e: Point, g: Point, k: Point, m: Point)
    requires |f.vertices| >= 1
    requires var h := Dot(f.normal, f.vertices[0]);
      Dot(f.normal, a) <= h && Dot(f.normal, b) <= h && Dot(f.normal, c) <= h && Dot(f.normal, d) <= h &&
      Dot(f.normal, e) <= h && Dot(f.normal, g) <= h && Dot(f.normal, k) <= h && Dot(f.normal, m) <= h
    ensures Beneath(f, [a, b, c, d, e, g, k, m])
  {
  }

  /** A quad whose four vertices are inside the unit cube. */
  lemma QuadInCube(n: Point, a: Point, b: Point, c: Point, d: Point)
    requires InUnitCube(a) && InUnitCube(b) && InUnitCube(c) && InUnitCube(d)
    ensures FaceInCube(Face(n, [a, b, c, d]))
  {
  }

  /** A triangle whose three vertices are inside the unit cube. */
  lemma TriangleInCube(n: Point, a: Point, b: Point, c: Point)
    requires InUnitCube(a) && InUnitCube(b) && InUnitCube(c)
    ensures FaceInCube(Face(n, [a, b, c]))
  {
  }

  /** A flat quad with no corner beyond it, whose vertices are corners inside the unit cube, fits. */
  lemma QuadFits(n: Point, a: Point, b: Point, c: Point, d: Point, corners: seq<Point>)
    requires Flat(Face(n, [a, b, c, d])) && Beneath(Face(n, [a, b, c, d]), corners)
    requires InUnitCube(a) && InUnitCube(b) && InUnitCube(c) && InUnitCube(d)
    requires a in corners && b in corners && c in corners && d in corners
    ensures Fits(Face(n, [a, b, c, d]), corners)
  {
  }

  /** A flat triangle with no corner beyond it, whose vertices are corners inside the unit cube, fits. */
  lemma TriangleFits(n: Point, a: Point, b: Point, c: Point, corners: seq<Point>)
    requires Flat(Face(n, [a, b, c])) && Beneath(Face(n, [a, b, c]), corners)
    requires InUnitCube(a) && InUnitCube(b) && InUnitCube(c)
    requires a in corners && b in corners && c in corners
    ensures Fits(Face(n, [a, b, c]), corners)
  {
  }

  /** A side whose normal gives the apex and the first corner different heights along it is not flat. */
  lemma NotFlat(f: Face)
    requires |f.vertices| == 3 && f.vertices[2] == Apex
    requires Dot(f.normal, Apex) != Dot(f.normal, f.vertices[0])
    ensures !Flat(f)
  {
    assert Apex in f.vertices;
  }

  /* ---------------------------------------------------------------- facts */

  /*
    Each fact about one face is its own small lemma that first spells the face
    out: the arithmetic on literal coordinates is cheap one face at a time and
    costly all together.
   */

  lemma PlaneQuadIsFlat()
    ensures Flat(PlaneQuad)
  {
    assert PlaneQuad == Face(Point(0.0, 1.0, 0.0), [Point(0.5, 0.0, -0.5), Point(0.5, 0.0, 0.5), Point(-0.5, 0.0, 0.5), Point(-0.5, 0.0, -0.5)]);
    FlatQuad(Point(0.0, 1.0, 0.0), Point(0.5, 0.0, -0.5), Point(0.5, 0.0, 0.5), Point(-0.5, 0.0, 0.5), Point(-0.5, 0.0, -0.5));
  }

  lemma CubeFrontIsFlat()
    ensures Flat(CubeFront)
  {
    assert CubeFront == Face(Point(0.0, 0.0, -1.0), [Point(0.5, -0.5, -0.5), Point(0.5, 0.5, -0.5), Point(-0.5, 0.5, -0.5), Point(-0.5, -0.5, -0.5)]);
    FlatQuad(Point(0.0, 0.0, -1.0), Point(0.5, -0.5, -0.5), Point(0.5, 0.5, -0.5), Point(-0.5, 0.5, -0.5), Point(-0.5, -0.5, -0.5));
  }

  lemma CubeBackIsFlat()
    ensures Flat(CubeBack)
  {
    assert CubeBack == Face(Point(0.0, 0.0, 1.0), [Point(0.5, -0.5, 0.5), Point(0.5, 0.5, 0.5), Point(-0.5, 0.5, 0.5), Point(-0.5, -0.5, 0.5)]);
    FlatQuad(Point(0.0, 0.0, 1.0), Point(0.5, -0.5, 0.5), Point(0.5, 0.5, 0.5), Point(-0.5, 0.5, 0.5), Point(-0.5, -0.5, 0.5));
  }

  lemma RightSideIsFlat()
    ensures Flat(RightSide)
  {
    assert RightSide == Face(Point(1.0, 0.0, 0.0), [Point(0.5, -0.5, -0.5), Point(0.5, 0.5, -0.5), Point(0.5, 0.5, 0.5), Point(0.5, -0.5, 0.5)]);
    FlatQuad(Point(1.0, 0.0, 0.0), Point(0.5, -0.5, -0.5), Point(0.5, 0.5, -0.5), Point(0.5, 0.5, 0.5), Point(0.5, -0.5, 0.5));
  }

  lemma CubeLeftIsFlat()
    ensures Flat(CubeLeft)
  {
    assert CubeLeft == Face(Point(-1.0, 0.0, 0.0), [Point(-0.5, -0.5, 0.5), Point(-0.5, 0.5, 0.5), Point(-0.5, 0.5, -0.5), Point(-0.5, -0.5, -0.5)]);
    FlatQuad(Point(-1.0, 0.0, 0.0), Point(-0.5, -0.5, 0.5), Point(-0.5, 0.5, 0.5), Point(-0.5, 0.5, -0.5), Point(-0.5, -0.5, -0.5));
  }

  lemma CubeTopIsFlat()
    ensures Flat(CubeTop)
  {
    assert CubeTop == Face(Point(0.0, 1.0, 0.0), [Point(0.5, 0.5, 0.5), Point(0.5, 0.5, -0.5), Point(-0.5, 0.5, -0.5), Point(-0.5, 0.5, 0.5)]);
    FlatQuad(Point(0.0, 1.0, 0.0), Point(0.5, 0.5, 0.5), Point(0.5, 0.5, -0.5), Point(-0.5, 0.5, -0.5), Point(-0.5, 0.5, 0.5));
  }

  lemma BottomIsFlat()
    ensures Flat(Bottom)
  {
    assert Bottom == Face(Point(0.0, -1.0, 0.0), [Point(0.5, -0.5, -0.5), Point(0.5, -0.5, 0.5), Point(-0.5, -0.5, 0.5), Point(-0.5, -0.5, -0.5)]);
    FlatQuad(Point(0.0, -1.0, 0.0), Point(0.5, -0.5, -0.5), Point(0.5, -0.5, 0.5), Point(-0.5, -0.5, 0.5), Point(-0.5, -0.5, -0.5));
  }

  lemma WedgeSlantIsFlat()
    ensures Flat(WedgeSlant)
  {
    assert WedgeSlant == Face(Point(-1.0, 1.0, 0.0), [Point(0.5, 0.5, -0.5), Point(0.5, 0.5, 0.5), Point(-0.5, -0.5, 0.5), Point(-0.5, -0.5, -0.5)]);
    FlatQuad(Point(-1.0, 1.0, 0.0), Point(0.5, 0.5, -0.5), Point(0.5, 0.5, 0.5), Point(-0.5, -0.5, 0.5), Point(-0.5, -0.5, -0.5));
  }

  lemma WedgeNearIsFlat()
    ensures Flat(WedgeNear)
  {
    assert WedgeNear == Face(Point(0.0, 0.0, 1.0), [Point(0.5, -0.5, 0.5), Point(0.5, 0.5, 0.5), Point(-0.5, -0.5, 0.5)]);
    FlatTriangle(Point(0.0, 0.0, 1.0), Point(0.5, -0.5, 0.5), Point(0.5, 0.5, 0.5), Point(-0.5, -0.5, 0.5));
  }

  lemma WedgeFarIsFlat()
    ensures Flat(WedgeFar)
  {
    assert WedgeFar == Face(Point(0.0, 0.0, -1.0), [Point(0.5, -0.5, -0.5), Point(0.5, 0.5, -0.5), Point(-0.5, -0.5, -0.5)]);
    FlatTriangle(Point(0.0, 0.0, -1.0), Point(0.5, -0.5, -0.5), Point(0.5, 0.5, -0.5), Point(-0.5, -0.5, -0.5));
  }

  lemma CorrectedRightIsFlat()
    ensures Flat(CorrectedRight)
  {
    assert CorrectedRight == Face(Point(1.0, 0.5, 0.0), [Point(0.5, -0.5, -0.5), Point(0.5, -0.5, 0.5), Point(0.0, 0.5, 0.0)]);
    FlatTriangle(Point(1.0, 0.5, 0.0), Point(0.5, -0.5, -0.5), Point(0.5, -0.5, 0.5), Point(0.0, 0.5, 0.0));
  }

  lemma CorrectedBackIsFlat()
    ensures Flat(CorrectedBack)
  {
    assert CorrectedBack == Face(Point(0.0, 0.5, 1.0), [Point(0.5, -0.5, 0.5), Point(-0.5, -0.5, 0.5), Point(0.0, 0.5, 0.0)]);
    FlatTriangle(Point(0.0, 0.5, 1.0), Point(0.5, -0.5, 0.5), Point(-0.5, -0.5, 0.5), Point(0.0, 0.5, 0.0));
  }

  lemma CorrectedLeftIsFlat()
    ensures Flat(CorrectedLeft)
  {
    assert CorrectedLeft == Face(Point(-1.0, 0.5, 0.0), [Point(-0.5, -0.5, 0.5), Point(-0.5, -0.5, -0.5), Point(0.0, 0.5, 0.0)]);
    FlatTriangle(Point(-1.0, 0.5, 0.0), Point(-0.5, -0.5, 0.5), Point(-0.5, -0.5, -0.5), Point(0.0, 0.5, 0.0));
  }

  lemma CorrectedFrontIsFlat()
    ensures Flat(CorrectedFront)
  {
    assert CorrectedFront == Face(Point(0.0, 0.5, -1.0), [Point(0.5, -0.5, -0.5), Point(-0.5, -0.5, -0.5), Point(0.0, 0.5, 0.0)]);
    FlatTriangle(Point(0.0, 0.5, -1.0), Point(0.5, -0.5, -0.5), Point(-0.5, -0.5, -0.5), Point(0.0, 0.5, 0.0));
  }
  lemma CubeFrontFacesOutOfCube()
    ensures Beneath(CubeFront, CubeCorners)
  {
    assert CubeFront == Face(Point(0.0, 0.0, -1.0), [Point(0.5, -0.5, -0.5), Point(0.5, 0.5, -0.5), Point(-0.5, 0.5, -0.5), Point(-0.5, -0.5, -0.5)]);
    assert CubeCorners == [Point(0.5, -0.5, -0.5), Point(0.5, -0.5, 0.5), Point(-0.5, -0.5, 0.5), Point(-0.5, -0.5, -0.5), Point(0.5, 0.5, -0.5), Point(0.5, 0.5, 0.5), Point(-0.5, 0.5, 0.5), Point(-0.5, 0.5, -0.5)];
    Below8(Face(Point(0.0, 0.0, -1.0), [Point(0.5, -0.5, -0.5), Point(0.5, 0.5, -0.5), Point(-0.5, 0.5, -0.5), Point(-0.5, -0.5, -0.5)]), Point(0.5, -0.5, -0.5), Point(0.5, -0.5, 0.5), Point(-0.5, -0.5, 0.5), Point(-0.5, -0.5, -0.5), Point(0.5, 0.5, -0.5), Point(0.5, 0.5, 0.5), Point(-0.5, 0.5, 0.5), Point(-0.5, 0.5, -0.5));
  }

  lemma CubeFrontGeometry()
    ensures CubeSide(CubeFront)
  {
    CubeFrontIsFlat();
    CubeFrontFacesOutOfCube();
    assert CubeFront == Face(Point(0.0, 0.0, -1.0), [Point(0.5, -0.5, -0.5), Point(0.5, 0.5, -0.5), Point(-0.5, 0.5, -0.5), Point(-0.5, -0.5, -0.5)]);
    assert CubeCorners == [Point(0.5, -0.5, -0.5), Point(0.5, -0.5, 0.5), Point(-0.5, -0.5, 0.5), Point(-0.5, -0.5, -0.5), Point(0.5, 0.5, -0.5), Point(0.5, 0.5, 0.5), Point(-0.5, 0.5, 0.5), Point(-0.5, 0.5, -0.5)];
    QuadFits(Point(0.0, 0.0, -1.0), Point(0.5, -0.5, -0.5), Point(0.5, 0.5, -0.5), Point(-0.5, 0.5, -0.5), Point(-0.5, -0.5, -0.5), [Point(0.5, -0.5, -0.5), Point(0.5, -0.5, 0.5), Point(-0.5, -0.5, 0.5), Point(-0.5, -0.5, -0.5), Point(0.5, 0.5, -0.5), Point(0.5, 0.5, 0.5), Point(-0.5, 0.5, 0.5), Point(-0.5, 0.5, -0.5)]);
  }

  lemma CubeBackFacesOutOfCube()
    ensures Beneath(CubeBack, CubeCorners)
  {
    assert CubeBack == Face(Point(0.0, 0.0, 1.0), [Point(0.5, -0.5, 0.5), Point(0.5, 0.5, 0.5), Point(-0.5, 0.5, 0.5), Point(-0.5, -0.5, 0.5)]);
    assert CubeCorners == [Point(0.5, -0.5, -0.5), Point(0.5, -0.5, 0.5), Point(-0.5, -0.5, 0.5), Point(-0.5, -0.5, -0.5), Point(0.5, 0.5, -0.5), Point(0.5, 0.5, 0.5), Point(-0.5, 0.5, 0.5), Point(-0.5, 0.5, -0.5)];
    Below8(Face(Point(0.0, 0.0, 1.0), [Point(0.5, -0.5, 0.5), Point(0.5, 0.5, 0.5), Point(-0.5, 0.5, 0.5), Point(-0.5, -0.5, 0.5)]), Point(0.5, -0.5, -0.5), Point(0.5, -0.5, 0.5), Point(-0.5, -0.5, 0.5), Point(-0.5, -0.5, -0.5), Point(0.5, 0.5, -0.5), Point(0.5, 0.5, 0.5), Point(-0.5, 0.5, 0.5), Point(-0.5, 0.5, -0.5));
  }

  lemma CubeBackGeometry()
    ensures CubeSide(CubeBack)
  {
    CubeBackIsFlat();
    CubeBackFacesOutOfCube();
    assert CubeBack == Face(Point(0.0, 0.0, 1.0), [Point(0.5, -0.5, 0.5), Point(0.5, 0.5, 0.5), Point(-0.5, 0.5, 0.5), Point(-0.5, -0.5, 0.5)]);
    assert CubeCorners == [Point(0.5, -0.5, -0.5), Point(0.5, -0.5, 0.5), Point(-0.5, -0.5, 0.5), Point(-0.5, -0.5, -0.5), Point(0.5, 0.5, -0.5), Point(0.5, 0.5, 0.5), Point(-0.5, 0.5, 0.5), Point(-0.5, 0.5, -0.5)];
    QuadFits(Point(0.0, 0.0, 1.0), Point(0.5, -0.5, 0.5), Point(0.5, 0.5, 0.5), Point(-0.5, 0.5, 0.5), Point(-0.5, -0.5, 0.5), [Point(0.5, -0.5, -0.5), Point(0.5, -0.5, 0.5), Point(-0.5, -0.5, 0.5), Point(-0.5, -0.5, -0.5), Point(0.5, 0.5, -0.5), Point(0.5, 0.5, 0.5), Point(-0.5, 0.5, 0.5), Point(-0.5, 0.5, -0.5)]);
  }

  lemma RightSideFacesOutOfCube()
    ensures Beneath(RightSide, CubeCorners)
  {
    assert RightSide == Face(Point(1.0, 0.0, 0.0), [Point(0.5, -0.5, -0.5), Point(0.5, 0.5, -0.5), Point(0.5, 0.5, 0.5), Point(0.5, -0.5, 0.5)]);
    assert CubeCorners == [Point(0.5, -0.5, -0.5), Point(0.5, -0.5, 0.5), Point(-0.5, -0.5, 0.5), Point(-0.5, -0.5, -0.5), Point(0.5, 0.5, -0.5), Point(0.5, 0.5, 0.5), Point(-0.5, 0.5, 0.5), Point(-0.5, 0.5, -0.5)];
    Below8(Face(Point(1.0, 0.0, 0.0), [Point(0.5, -0.5, -0.5), Point(0.5, 0.5, -0.5), Point(0.5, 0.5, 0.5), Point(0.5, -0.5, 0.5)]), Point(0.5, -0.5, -0.5), Point(0.5, -0.5, 0.5), Point(-0.5, -0.5, 0.5), Point(-0.5, -0.5, -0.5), Point(0.5, 0.5, -0.5), Point(0.5, 0.5, 0.5), Point(-0.5, 0.5, 0.5), Point(-0.5, 0.5, -0.5));
  }

  lemma RightSideGeometry()
    ensures CubeSide(RightSide)
  {
    RightSideIsFlat();
    RightSideFacesOutOfCube();
    assert RightSide == Face(Point(1.0, 0.0, 0.0), [Point(0.5, -0.5, -0.5), Point(0.5, 0.5, -0.5), Point(0.5, 0.5, 0.5), Point(0.5, -0.5, 0.5)]);
    assert CubeCorners == [Point(0.5, -0.5, -0.5), Point(0.5, -0.5, 0.5), Point(-0.5, -0.5, 0.5), Point(-0.5, -0.5, -0.5), Point(0.5, 0.5, -0.5), Point(0.5, 0.5, 0.5), Point(-0.5, 0.5, 0.5), Point(-0.5, 0.5, -0.5)];
    QuadFits(Point(1.0, 0.0, 0.0), Point(0.5, -0.5, -0.5), Point(0.5, 0.5, -0.5), Point(0.5, 0.5, 0.5), Point(0.5, -0.5, 0.5), [Point(0.5, -0.5, -0.5), Point(0.5, -0.5, 0.5), Point(-0.5, -0.5, 0.5), Point(-0.5, -0.5, -0.5), Point(0.5, 0.5, -0.5), Point(0.5, 0.5, 0.5), Point(-0.5, 0.5, 0.5), Point(-0.5, 0.5, -0.5)]);
  }

  lemma CubeLeftFacesOutOfCube()
    ensures Beneath(CubeLeft, CubeCorners)
  {
    assert CubeLeft == Face(Point(-1.0, 0.0, 0.0), [Point(-0.5, -0.5, 0.5), Point(-0.5, 0.5, 0.5), Point(-0.5, 0.5, -0.5), Point(-0.5, -0.5, -0.5)]);
    assert CubeCorners == [Point(0.5, -0.5, -0.5), Point(0.5, -0.5, 0.5), Point(-0.5, -0.5, 0.5), Point(-0.5, -0.5, -0.5), Point(0.5, 0.5, -0.5), Point(0.5, 0.5, 0.5), Point(-0.5, 0.5, 0.5), Point(-0.5, 0.5, -0.5)];
    Below8(Face(Point(-1.0, 0.0, 0.0), [Point(-0.5, -0.5, 0.5), Point(-0.5, 0.5, 0.5), Point(-0.5, 0.5, -0.5), Point(-0.5, -0.5, -0.5)]), Point(0.5, -0.5, -0.5), Point(0.5, -0.5, 0.5), Point(-0.5, -0.5, 0.5), Point(-0.5, -0.5, -0.5), Point(0.5, 0.5, -0.5), Point(0.5, 0.5, 0.5), Point(-0.5, 0.5, 0.5), Point(-0.5, 0.5, -0.5));
  }

  lemma CubeLeftGeometry()
    ensures CubeSide(CubeLeft)
  {
    CubeLeftIsFlat();
    CubeLeftFacesOutOfCube();
    assert CubeLeft == Face(Point(-1.0, 0.0, 0.0), [Point(-0.5, -0.5, 0.5), Point(-0.5, 0.5, 0.5), Point(-0.5, 0.5, -0.5), Point(-0.5, -0.5, -0.5)]);
    assert CubeCorners == [Point(0.5, -0.5, -0.5), Point(0.5, -0.5, 0.5), Point(-0.5, -0.5, 0.5), Point(-0.5, -0.5, -0.5), Point(0.5, 0.5, -0.5), Point(0.5, 0.5, 0.5), Point(-0.5, 0.5, 0.5), Point(-0.5, 0.5, -0.5)];
    QuadFits(Point(-1.0, 0.0, 0.0), Point(-0.5, -0.5, 0.5), Point(-0.5, 0.5, 0.5), Point(-0.5, 0.5, -0.5), Point(-0.5, -0.5, -0.5), [Point(0.5, -0.5, -0.5), Point(0.5, -0.5, 0.5), Point(-0.5, -0.5, 0.5), Point(-0.5, -0.5, -0.5), Point(0.5, 0.5, -0.5), Point(0.5, 0.5, 0.5), Point(-0.5, 0.5, 0.5), Point(-0.5, 0.5, -0.5)]);
  }

  lemma CubeTopFacesOutOfCube()
    ensures Beneath(CubeTop, CubeCorners)
  {
    assert CubeTop == Face(Point(0.0, 1.0, 0.0), [Point(0.5, 0.5, 0.5), Point(0.5, 0.5, -0.5), Point(-0.5, 0.5, -0.5), Point(-0.5, 0.5, 0.5)]);
    assert CubeCorners == [Point(0.5, -0.5, -0.5), Point(0.5, -0.5, 0.5), Point(-0.5, -0.5, 0.5), Point(-0.5, -0.5, -0.5), Point(0.5, 0.5, -0.5), Point(0.5, 0.5, 0.5), Point(-0.5, 0.5, 0.5), Point(-0.5, 0.5, -0.5)];
    Below8(Face(Point(0.0, 1.0, 0.0), [Point(0.5, 0.5, 0.5), Point(0.5, 0.5, -0.5), Point(-0.5, 0.5, -0.5), Point(-0.5, 0.5, 0.5)]), Point(0.5, -0.5, -0.5), Point(0.5, -0.5, 0.5), Point(-0.5, -0.5, 0.5), Point(-0.5, -0.5, -0.5), Point(0.5, 0.5, -0.5), Point(0.5, 0.5, 0.5), Point(-0.5, 0.5, 0.5), Point(-0.5, 0.5, -0.5));
  }

  lemma CubeTopGeometry()
    ensures CubeSide(CubeTop)
  {
    CubeTopIsFlat();
    CubeTopFacesOutOfCube();
    assert CubeTop == Face(Point(0.0, 1.0, 0.0), [Point(0.5, 0.5, 0.5), Point(0.5, 0.5, -0.5), Point(-0.5, 0.5, -0.5), Point(-0.5, 0.5, 0.5)]);
    assert CubeCorners == [Point(0.5, -0.5, -0.5), Point(0.5, -0.5, 0.5), Point(-0.5, -0.5, 0.5), Point(-0.5, -0.5, -0.5), Point(0.5, 0.5, -0.5), Point(0.5, 0.5, 0.5), Point(-0.5, 0.5, 0.5), Point(-0.5, 0.5, -0.5)];
    QuadFits(Point(0.0, 1.0, 0.0), Point(0.5, 0.5, 0.5), Point(0.5, 0.5, -0.5), Point(-0.5, 0.5, -0.5), Point(-0.5, 0.5, 0.5), [Point(0.5, -0.5, -0.5), Point(0.5, -0.5, 0.5), Point(-0.5, -0.5, 0.5), Point(-0.5, -0.5, -0.5), Point(0.5, 0.5, -0.5), Point(0.5, 0.5, 0.5), Point(-0.5, 0.5, 0.5), Point(-0.5, 0.5, -0.5)]);
  }

  lemma BottomFacesOutOfCube()
    ensures Beneath(Bottom, CubeCorners)
  {
    assert Bottom == Face(Point(0.0, -1.0, 0.0), [Point(0.5, -0.5, -0.5), Point(0.5, -0.5, 0.5), Point(-0.5, -0.5, 0.5), Point(-0.5, -0.5, -0.5)]);
    assert CubeCorners == [Point(0.5, -0.5, -0.5), Point(0.5, -0.5, 0.5), Point(-0.5, -0.5, 0.5), Point(-0.5, -0.5, -0.5), Point(0.5, 0.5, -0.5), Point(0.5, 0.5, 0.5), Point(-0.5, 0.5, 0.5), Point(-0.5, 0.5, -0.5)];
    Below8(Face(Point(0.0, -1.0, 0.0), [Point(0.5, -0.5, -0.5), Point(0.5, -0.5, 0.5), Point(-0.5, -0.5, 0.5), Point(-0.5, -0.5, -0.5)]), Point(0.5, -0.5, -0.5), Point(0.5, -0.5, 0.5), Point(-0.5, -0.5, 0.5), Point(-0.5, -0.5, -0.5), Point(0.5, 0.5, -0.5), Point(0.5, 0.5, 0.5), Point(-0.5, 0.5, 0.5), Point(-0.5, 0.5, -0.5));
  }

  lemma BottomGeometry()
    ensures CubeSide(Bottom)
  {
    BottomIsFlat();
    BottomFacesOutOfCube();
    assert Bottom == Face(Point(0.0, -1.0, 0.0), [Point(0.5, -0.5, -0.5), Point(0.5, -0.5, 0.5), Point(-0.5, -0.5, 0.5), Point(-0.5, -0.5, -0.5)]);
    assert CubeCorners == [Point(0.5, -0.5, -0.5), Point(0.5, -0.5, 0.5), Point(-0.5, -0.5, 0.5), Point(-0.5, -0.5, -0.5), Point(0.5, 0.5, -0.5), Point(0.5, 0.5, 0.5), Point(-0.5, 0.5, 0.5), Point(-0.5, 0.5, -0.5)];
    QuadFits(Point(0.0, -1.0, 0.0), Point(0.5, -0.5, -0.5), Point(0.5, -0.5, 0.5), Point(-0.5, -0.5, 0.5), Point(-0.5, -0.5, -0.5), [Point(0.5, -0.5, -0.5), Point(0.5, -0.5, 0.5), Point(-0.5, -0.5, 0.5), Point(-0.5, -0.5, -0.5), Point(0.5, 0.5, -0.5), Point(0.5, 0.5, 0.5), Point(-0.5, 0.5, 0.5), Point(-0.5, 0.5, -0.5)]);
  }
  lemma BottomFacesOutOfWedge()
    ensures Beneath(Bottom, WedgeCorners)
  {
    assert Bottom == Face(Point(0.0, -1.0, 0.0), [Point(0.5, -0.5, -0.5), Point(0.5, -0.5, 0.5), Point(-0.5, -0.5, 0.5), Point(-0.5, -0.5, -0.5)]);
    assert WedgeCorners == [Point(0.5, -0.5, -0.5), Point(0.5, -0.5, 0.5), Point(-0.5, -0.5, 0.5), Point(-0.5, -0.5, -0.5), Point(0.5, 0.5, -0.5), Point(0.5, 0.5, 0.5)];
    Below6(Face(Point(0.0, -1.0, 0.0), [Point(0.5, -0.5, -0.5), Point(0.5, -0.5, 0.5), Point(-0.5, -0.5, 0.5), Point(-0.5, -0.5, -0.5)]), Point(0.5, -0.5, -0.5), Point(0.5, -0.5, 0.5), Point(-0.5, -0.5, 0.5), Point(-0.5, -0.5, -0.5), Point(0.5, 0.5, -0.5), Point(0.5, 0.5, 0.5));
  }

  lemma BottomOfWedge()
    ensures Fits(Bottom, WedgeCorners)
  {
    BottomIsFlat();
    BottomFacesOutOfWedge();
    assert Bottom == Face(Point(0.0, -1.0, 0.0), [Point(0.5, -0.5, -0.5), Point(0.5, -0.5, 0.5), Point(-0.5, -0.5, 0.5), Point(-0.5, -0.5, -0.5)]);
    assert WedgeCorners == [Point(0.5, -0.5, -0.5), Point(0.5, -0.5, 0.5), Point(-0.5, -0.5, 0.5), Point(-0.5, -0.5, -0.5), Point(0.5, 0.5, -0.5), Point(0.5, 0.5, 0.5)];
    QuadFits(Point(0.0, -1.0, 0.0), Point(0.5, -0.5, -0.5), Point(0.5, -0.5, 0.5), Point(-0.5, -0.5, 0.5), Point(-0.5, -0.5, -0.5), [Point(0.5, -0.5, -0.5), Point(0.5, -0.5, 0.5), Point(-0.5, -0.5, 0.5), Point(-0.5, -0.5, -0.5), Point(0.5, 0.5, -0.5), Point(0.5, 0.5, 0.5)]);
  }

  lemma RightSideFacesOutOfWedge()
    ensures Beneath(RightSide, WedgeCorners)
  {
    assert RightSide == Face(Point(1.0, 0.0, 0.0), [Point(0.5, -0.5, -0.5), Point(0.5, 0.5, -0.5), Point(0.5, 0.5, 0.5), Point(0.5, -0.5, 0.5)]);
    assert WedgeCorners == [Point(0.5, -0.5, -0.5), Point(0.5, -0.5, 0.5), Point(-0.5, -0.5, 0.5), Point(-0.5, -0.5, -0.5), Point(0.5, 0.5, -0.5), Point(0.5, 0.5, 0.5)];
    Below6(Face(Point(1.0, 0.0, 0.0), [Point(0.5, -0.5, -0.5), Point(0.5, 0.5, -0.5), Point(0.5, 0.5, 0.5), Point(0.5, -0.5, 0.5)]), Point(0.5, -0.5, -0.5), Point(0.5, -0.5, 0.5), Point(-0.5, -0.5, 0.5), Point(-0.5, -0.5, -0.5), Point(0.5, 0.5, -0.5), Point(0.5, 0.5, 0.5));
  }

  lemma RightSideOfWedge()
    ensures Fits(RightSide, WedgeCorners)
  {
    RightSideIsFlat();
    RightSideFacesOutOfWedge();
    assert RightSide == Face(Point(1.0, 0.0, 0.0), [Point(0.5, -0.5, -0.5), Point(0.5, 0.5, -0.5), Point(0.5, 0.5, 0.5), Point(0.5, -0.5, 0.5)]);
    assert WedgeCorners == [Point(0.5, -0.5, -0.5), Point(0.5, -0.5, 0.5), Point(-0.5, -0.5, 0.5), Point(-0.5, -0.5, -0.5), Point(0.5, 0.5, -0.5), Point(0.5, 0.5, 0.5)];
    QuadFits(Point(1.0, 0.0, 0.0), Point(0.5, -0.5, -0.5), Point(0.5, 0.5, -0.5), Point(0.5, 0.5, 0.5), Point(0.5, -0.5, 0.5), [Point(0.5, -0.5, -0.5), Point(0.5, -0.5, 0.5), Point(-0.5, -0.5, 0.5), Point(-0.5, -0.5, -0.5), Point(0.5, 0.5, -0.5), Point(0.5, 0.5, 0.5)]);
  }

  lemma WedgeSlantFacesOutOfWedge()
    ensures Beneath(WedgeSlant, WedgeCorners)
  {
    assert WedgeSlant == Face(Point(-1.0, 1.0, 0.0), [Point(0.5, 0.5, -0.5), Point(0.5, 0.5, 0.5), Point(-0.5, -0.5, 0.5), Point(-0.5, -0.5, -0.5)]);
    assert WedgeCorners == [Point(0.5, -0.5, -0.5), Point(0.5, -0.5, 0.5), Point(-0.5, -0.5, 0.5), Point(-0.5, -0.5, -0.5), Point(0.5, 0.5, -0.5), Point(0.5, 0.5, 0.5)];
    Below6(Face(Point(-1.0, 1.0, 0.0), [Point(0.5, 0.5, -0.5), Point(0.5, 0.5, 0.5), Point(-0.5, -0.5, 0.5), Point(-0.5, -0.5, -0.5)]), Point(0.5, -0.5, -0.5), Point(0.5, -0.5, 0.5), Point(-0.5, -0.5, 0.5), Point(-0.5, -0.5, -0.5), Point(0.5, 0.5, -0.5), Point(0.5, 0.5, 0.5));
  }

  lemma WedgeSlantGeometry()
    ensures Fits(WedgeSlant, WedgeCorners)
  {
    WedgeSlantIsFlat();
    WedgeSlantFacesOutOfWedge();
    assert WedgeSlant == Face(Point(-1.0, 1.0, 0.0), [Point(0.5, 0.5, -0.5), Point(0.5, 0.5, 0.5), Point(-0.5, -0.5, 0.5), Point(-0.5, -0.5, -0.5)]);
    assert WedgeCorners == [Point(0.5, -0.5, -0.5), Point(0.5, -0.5, 0.5), Point(-0.5, -0.5, 0.5), Point(-0.5, -0.5, -0.5), Point(0.5, 0.5, -0.5), Point(0.5, 0.5, 0.5)];
    QuadFits(Point(-1.0, 1.0, 0.0), Point(0.5, 0.5, -0.5), Point(0.5, 0.5, 0.5), Point(-0.5, -0.5, 0.5), Point(-0.5, -0.5, -0.5), [Point(0.5, -0.5, -0.5), Point(0.5, -0.5, 0.5), Point(-0.5, -0.5, 0.5), Point(-0.5, -0.5, -0.5), Point(0.5, 0.5, -0.5), Point(0.5, 0.5, 0.5)]);
  }

  lemma WedgeNearFacesOutOfWedge()
    ensures Beneath(WedgeNear, WedgeCorners)
  {
    assert WedgeNear == Face(Point(0.0, 0.0, 1.0), [Point(0.5, -0.5, 0.5), Point(0.5, 0.5, 0.5), Point(-0.5, -0.5, 0.5)]);
    assert WedgeCorners == [Point(0.5, -0.5, -0.5), Point(0.5, -0.5, 0.5), Point(-0.5, -0.5, 0.5), Point(-0.5, -0.5, -0.5), Point(0.5, 0.5, -0.5), Point(0.5, 0.5, 0.5)];
    Below6(Face(Point(0.0, 0.0, 1.0), [Point(0.5, -0.5, 0.5), Point(0.5, 0.5, 0.5), Point(-0.5, -0.5, 0.5)]), Point(0.5, -0.5, -0.5), Point(0.5, -0.5, 0.5), Point(-0.5, -0.5, 0.5), Point(-0.5, -0.5, -0.5), Point(0.5, 0.5, -0.5), Point(0.5, 0.5, 0.5));
  }

  lemma WedgeNearGeometry()
    ensures Fits(WedgeNear, WedgeCorners)
  {
    WedgeNearIsFlat();
    WedgeNearFacesOutOfWedge();
    assert WedgeNear == Face(Point(0.0, 0.0, 1.0), [Point(0.5, -0.5, 0.5), Point(0.5, 0.5, 0.5), Point(-0.5, -0.5, 0.5)]);
    assert WedgeCorners == [Point(0.5, -0.5, -0.5), Point(0.5, -0.5, 0.5), Point(-0.5, -0.5, 0.5), Point(-0.5, -0.5, -0.5), Point(0.5, 0.5, -0.5), Point(0.5, 0.5, 0.5)];
    TriangleFits(Point(0.0, 0.0, 1.0), Point(0.5, -0.5, 0.5), Point(0.5, 0.5, 0.5), Point(-0.5, -0.5, 0.5), [Point(0.5, -0.5, -0.5), Point(0.5, -0.5, 0.5), Point(-0.5, -0.5, 0.5), Point(-0.5, -0.5, -0.5), Point(0.5, 0.5, -0.5), Point(0.5, 0.5, 0.5)]);
  }

  lemma WedgeFarFacesOutOfWedge()
    ensures Beneath(WedgeFar, WedgeCorners)
  {
    assert WedgeFar == Face(Point(0.0, 0.0, -1.0), [Point(0.5, -0.5, -0.5), Point(0.5, 0.5, -0.5), Point(-0.5, -0.5, -0.5)]);
    assert WedgeCorners == [Point(0.5, -0.5, -0.5), Point(0.5, -0.5, 0.5), Point(-0.5, -0.5, 0.5), Point(-0.5, -0.5, -0.5), Point(0.5, 0.5, -0.5), Point(0.5, 0.5, 0.5)];
    Below6(Face(Point(0.0, 0.0, -1.0), [Point(0.5, -0.5, -0.5), Point(0.5, 0.5, -0.5), Point(-0.5, -0.5, -0.5)]), Point(0.5, -0.5, -0.5), Point(0.5, -0.5, 0.5), Point(-0.5, -0.5, 0.5), Point(-0.5, -0.5, -0.5), Point(0.5, 0.5, -0.5), Point(0.5, 0.5, 0.5));
  }

  lemma WedgeFarGeometry()
    ensures Fits(WedgeFar, WedgeCorners)
  {
    WedgeFarIsFlat();
    WedgeFarFacesOutOfWedge();
    assert WedgeFar == Face(Point(0.0, 0.0, -1.0), [Point(0.5, -0.5, -0.5), Point(0.5, 0.5, -0.5), Point(-0.5, -0.5, -0.5)]);
    assert WedgeCorners == [Point(0.5, -0.5, -0.5), Point(0.5, -0.5, 0.5), Point(-0.5, -0.5, 0.5), Point(-0.5, -0.5, -0.5), Point(0.5, 0.5, -0.5), Point(0.5, 0.5, 0.5)];
    TriangleFits(Point(0.0, 0.0, -1.0), Point(0.5, -0.5, -0.5), Point(0.5, 0.5, -0.5), Point(-0.5, -0.5, -0.5), [Point(0.5, -0.5, -0.5), Point(0.5, -0.5, 0.5), Point(-0.5, -0.5, 0.5), Point(-0.5, -0.5, -0.5), Point(0.5, 0.5, -0.5), Point(0.5, 0.5, 0.5)]);
  }
  lemma BottomFacesOutOfPyramid()
    ensures Beneath(Bottom, PyramidCorners)
  {
    assert Bottom == Face(Point(0.0, -1.0, 0.0), [Point(0.5, -0.5, -0.5), Point(0.5, -0.5, 0.5), Point(-0.5, -0.5, 0.5), Point(-0.5, -0.5, -0.5)]);
    assert PyramidCorners == [Point(0.5, -0.5, -0.5), Point(0.5, -0.5, 0.5), Point(-0.5, -0.5, 0.5), Point(-0.5, -0.5, -0.5), Point(0.0, 0.5, 0.0)];
    Below5(Face(Point(0.0, -1.0, 0.0), [Point(0.5, -0.5, -0.5), Point(0.5, -0.5, 0.5), Point(-0.5, -0.5, 0.5), Point(-0.5, -0.5, -0.5)]), Point(0.5, -0.5, -0.5), Point(0.5, -0.5, 0.5), Point(-0.5, -0.5, 0.5), Point(-0.5, -0.5, -0.5), Point(0.0, 0.5, 0.0));
  }

  lemma BottomOfPyramid()
    ensures Fits(Bottom, PyramidCorners)
  {
    BottomIsFlat();
    BottomFacesOutOfPyramid();
    assert Bottom == Face(Point(0.0, -1.0, 0.0), [Point(0.5, -0.5, -0.5), Point(0.5, -0.5, 0.5), Point(-0.5, -0.5, 0.5), Point(-0.5, -0.5, -0.5)]);
    assert PyramidCorners == [Point(0.5, -0.5, -0.5), Point(0.5, -0.5, 0.5), Point(-0.5, -0.5, 0.5), Point(-0.5, -0.5, -0.5), Point(0.0, 0.5, 0.0)];
    QuadFits(Point(0.0, -1.0, 0.0), Point(0.5, -0.5, -0.5), Point(0.5, -0.5, 0.5), Point(-0.5, -0.5, 0.5), Point(-0.5, -0.5, -0.5), [Point(0.5, -0.5, -0.5), Point(0.5, -0.5, 0.5), Point(-0.5, -0.5, 0.5), Point(-0.5, -0.5, -0.5), Point(0.0, 0.5, 0.0)]);
  }

  lemma CorrectedRightFacesOutOfPyramid()
    ensures Beneath(CorrectedRight, PyramidCorners)
  {
    assert CorrectedRight == Face(Point(1.0, 0.5, 0.0), [Point(0.5, -0.5, -0.5), Point(0.5, -0.5, 0.5), Point(0.0, 0.5, 0.0)]);
    assert PyramidCorners == [Point(0.5, -0.5, -0.5), Point(0.5, -0.5, 0.5), Point(-0.5, -0.5, 0.5), Point(-0.5, -0.5, -0.5), Point(0.0, 0.5, 0.0)];
    Below5(Face(Point(1.0, 0.5, 0.0), [Point(0.5, -0.5, -0.5), Point(0.5, -0.5, 0.5), Point(0.0, 0.5, 0.0)]), Point(0.5, -0.5, -0.5), Point(0.5, -0.5, 0.5), Point(-0.5, -0.5, 0.5), Point(-0.5, -0.5, -0.5), Point(0.0, 0.5, 0.0));
  }

  lemma CorrectedRightGeometry()
    ensures Fits(CorrectedRight, PyramidCorners)
  {
    CorrectedRightIsFlat();
    CorrectedRightFacesOutOfPyramid();
    assert CorrectedRight == Face(Point(1.0, 0.5, 0.0), [Point(0.5, -0.5, -0.5), Point(0.5, -0.5, 0.5), Point(0.0, 0.5, 0.0)]);
    assert PyramidCorners == [Point(0.5, -0.5, -0.5), Point(0.5, -0.5, 0.5), Point(-0.5, -0.5, 0.5), Point(-0.5, -0.5, -0.5), Point(0.0, 0.5, 0.0)];
    TriangleFits(Point(1.0, 0.5, 0.0), Point(0.5, -0.5, -0.5), Point(0.5, -0.5, 0.5), Point(0.0, 0.5, 0.0), [Point(0.5, -0.5, -0.5), Point(0.5, -0.5, 0.5), Point(-0.5, -0.5, 0.5), Point(-0.5, -0.5, -0.5), Point(0.0, 0.5, 0.0)]);
  }

  lemma CorrectedBackFacesOutOfPyramid()
    ensures Beneath(CorrectedBack, PyramidCorners)
  {
    assert CorrectedBack == Face(Point(0.0, 0.5, 1.0), [Point(0.5, -0.5, 0.5), Point(-0.5, -0.5, 0.5), Point(0.0, 0.5, 0.0)]);
    assert PyramidCorners == [Point(0.5, -0.5, -0.5), Point(0.5, -0.5, 0.5), Point(-0.5, -0.5, 0.5), Point(-0.5, -0.5, -0.5), Point(0.0, 0.5, 0.0)];
    Below5(Face(Point(0.0, 0.5, 1.0), [Point(0.5, -0.5, 0.5), Point(-0.5, -0.5, 0.5), Point(0.0, 0.5, 0.0)]), Point(0.5, -0.5, -0.5), Point(0.5, -0.5, 0.5), Point(-0.5, -0.5, 0.5), Point(-0.5, -0.5, -0.5), Point(0.0, 0.5, 0.0));
  }

  lemma CorrectedBackGeometry()
    ensures Fits(CorrectedBack, PyramidCorners)
  {
    CorrectedBackIsFlat();
    CorrectedBackFacesOutOfPyramid();
    assert CorrectedBack == Face(Point(0.0, 0.5, 1.0), [Point(0.5, -0.5, 0.5), Point(-0.5, -0.5, 0.5), Point(0.0, 0.5, 0.0)]);
    assert PyramidCorners == [Point(0.5, -0.5, -0.5), Point(0.5, -0.5, 0.5), Point(-0.5, -0.5, 0.5), Point(-0.5, -0.5, -0.5), Point(0.0, 0.5, 0.0)];
    TriangleFits(Point(0.0, 0.5, 1.0), Point(0.5, -0.5, 0.5), Point(-0.5, -0.5, 0.5), Point(0.0, 0.5, 0.0), [Point(0.5, -0.5, -0.5), Point(0.5, -0.5, 0.5), Point(-0.5, -0.5, 0.5), Point(-0.5, -0.5, -0.5), Point(0.0, 0.5, 0.0)]);
  }

  lemma CorrectedLeftFacesOutOfPyramid()
    ensures Beneath(CorrectedLeft, PyramidCorners)
  {
    assert CorrectedLeft == Face(Point(-1.0, 0.5, 0.0), [Point(-0.5, -0.5, 0.5), Point(-0.5, -0.5, -0.5), Point(0.0, 0.5, 0.0)]);
    assert PyramidCorners == [Point(0.5, -0.5, -0.5), Point(0.5, -0.5, 0.5), Point(-0.5, -0.5, 0.5), Point(-0.5, -0.5, -0.5), Point(0.0, 0.5, 0.0)];
    Below5(Face(Point(-1.0, 0.5, 0.0), [Point(-0.5, -0.5, 0.5), Point(-0.5, -0.5, -0.5), Point(0.0, 0.5, 0.0)]), Point(0.5, -0.5, -0.5), Point(0.5, -0.5, 0.5), Point(-0.5, -0.5, 0.5), Point(-0.5, -0.5, -0.5), Point(0.0, 0.5, 0.0));
  }

  lemma CorrectedLeftGeometry()
    ensures Fits(CorrectedLeft, PyramidCorners)
  {
    CorrectedLeftIsFlat();
    CorrectedLeftFacesOutOfPyramid();
    assert CorrectedLeft == Face(Point(-1.0, 0.5, 0.0), [Point(-0.5, -0.5, 0.5), Point(-0.5, -0.5, -0.5), Point(0.0, 0.5, 0.0)]);
    assert PyramidCorners == [Point(0.5, -0.5, -0.5), Point(0.5, -0.5, 0.5), Point(-0.5, -0.5, 0.5), Point(-0.5, -0.5, -0.5), Point(0.0, 0.5, 0.0)];
    TriangleFits(Point(-1.0, 0.5, 0.0), Point(-0.5, -0.5, 0.5), Point(-0.5, -0.5, -0.5), Point(0.0, 0.5, 0.0), [Point(0.5, -0.5, -0.5), Point(0.5, -0.5, 0.5), Point(-0.5, -0.5, 0.5), Point(-0.5, -0.5, -0.5), Point(0.0, 0.5, 0.0)]);
  }

  lemma CorrectedFrontFacesOutOfPyramid()
    ensures Beneath(CorrectedFront, PyramidCorners)
  {
    assert CorrectedFront == Face(Point(0.0, 0.5, -1.0), [Point(0.5, -0.5, -0.5), Point(-0.5, -0.5, -0.5), Point(0.0, 0.5, 0.0)]);
    assert PyramidCorners == [Point(0.5, -0.5, -0.5), Point(0.5, -0.5, 0.5), Point(-0.5, -0.5, 0.5), Point(-0.5, -0.5, -0.5), Point(0.0, 0.5, 0.0)];
    Below5(Face(Point(0.0, 0.5, -1.0), [Point(0.5, -0.5, -0.5), Point(-0.5, -0.5, -0.5), Point(0.0, 0.5, 0.0)]), Point(0.5, -0.5, -0.5), Point(0.5, -0.5, 0.5), Point(-0.5, -0.5, 0.5), Point(-0.5, -0.5, -0.5), Point(0.0, 0.5, 0.0));
  }

  lemma CorrectedFrontGeometry()
    ensures Fits(CorrectedFront, PyramidCorners)
  {
    CorrectedFrontIsFlat();
    CorrectedFrontFacesOutOfPyramid();
    assert CorrectedFront == Face(Point(0.0, 0.5, -1.0), [Point(0.5, -0.5, -0.5), Point(-0.5, -0.5, -0.5), Point(0.0, 0.5, 0.0)]);
    assert PyramidCorners == [Point(0.5, -0.5, -0.5), Point(0.5, -0.5, 0.5), Point(-0.5, -0.5, 0.5), Point(-0.5, -0.5, -0.5), Point(0.0, 0.5, 0.0)];
    TriangleFits(Point(0.0, 0.5, -1.0), Point(0.5, -0.5, -0.5), Point(-0.5, -0.5, -0.5), Point(0.0, 0.5, 0.0), [Point(0.5, -0.5, -0.5), Point(0.5, -0.5, 0.5), Point(-0.5, -0.5, 0.5), Point(-0.5, -0.5, -0.5), Point(0.0, 0.5, 0.0)]);
  }
  lemma PyramidRightTilted()
    ensures Dot(PyramidRight.normal, Minus(Apex, PyramidRight.vertices[0])) == 0.75
    ensures FaceInCube(PyramidRight) && !Flat(PyramidRight)
  {
    assert PyramidRight == Face(Point(0.5, 1.0, 0.0), [Point(0.5, -0.5, -0.5), Point(0.5, -0.5, 0.5), Point(0.0, 0.5, 0.0)]);
    TriangleInCube(Point(0.5, 1.0, 0.0), Point(0.5, -0.5, -0.5), Point(0.5, -0.5, 0.5), Point(0.0, 0.5, 0.0));
    NotFlat(Face(Point(0.5, 1.0, 0.0), [Point(0.5, -0.5, -0.5), Point(0.5, -0.5, 0.5), Point(0.0, 0.5, 0.0)]));
  }

  lemma PyramidBackTilted()
    ensures Dot(PyramidBack.normal, Minus(Apex, PyramidBack.vertices[0])) == 0.75
    ensures FaceInCube(PyramidBack) && !Flat(PyramidBack)
  {
    assert PyramidBack == Face(Point(0.0, 1.0, 0.5), [Point(0.5, -0.5, 0.5), Point(-0.5, -0.5, 0.5), Point(0.0, 0.5, 0.0)]);
    TriangleInCube(Point(0.0, 1.0, 0.5), Point(0.5, -0.5, 0.5), Point(-0.5, -0.5, 0.5), Point(0.0, 0.5, 0.0));
    NotFlat(Face(Point(0.0, 1.0, 0.5), [Point(0.5, -0.5, 0.5), Point(-0.5, -0.5, 0.5), Point(0.0, 0.5, 0.0)]));
  }

  lemma PyramidLeftTilted()
    ensures Dot(PyramidLeft.normal, Minus(Apex, PyramidLeft.vertices[0])) == 0.75
    ensures FaceInCube(PyramidLeft) && !Flat(PyramidLeft)
  {
    assert PyramidLeft == Face(Point(-0.5, 1.0, 0.0), [Point(-0.5, -0.5, 0.5), Point(-0.5, -0.5, -0.5), Point(0.0, 0.5, 0.0)]);
    TriangleInCube(Point(-0.5, 1.0, 0.0), Point(-0.5, -0.5, 0.5), Point(-0.5, -0.5, -0.5), Point(0.0, 0.5, 0.0));
    NotFlat(Face(Point(-0.5, 1.0, 0.0), [Point(-0.5, -0.5, 0.5), Point(-0.5, -0.5, -0.5), Point(0.0, 0.5, 0.0)]));
  }

  lemma PyramidFrontTilted()
    ensures Dot(PyramidFront.normal, Minus(Apex, PyramidFront.vertices[0])) == 0.75
    ensures FaceInCube(PyramidFront) && !Flat(PyramidFront)
  {
    assert PyramidFront == Face(Point(0.0, 1.0, -0.5), [Point(0.5, -0.5, -0.5), Point(-0.5, -0.5, -0.5), Point(0.0, 0.5, 0.0)]);
    TriangleInCube(Point(0.0, 1.0, -0.5), Point(0.5, -0.5, -0.5), Point(-0.5, -0.5, -0.5), Point(0.0, 0.5, 0.0));
    NotFlat(Face(Point(0.0, 1.0, -0.5), [Point(0.5, -0.5, -0.5), Point(-0.5, -0.5, -0.5), Point(0.0, 0.5, 0.0)]));
  }
  /** The plane lies in y = 0 inside the unit square, facing +Y. */
  lemma PlaneGeometry()
    ensures PlaneFaces == [PlaneQuad] && PlaneQuad.normal == Point(0.0, 1.0, 0.0)
    ensures Flat(PlaneQuad) && Bounded(PlaneFaces)
    ensures forall v :: v in PlaneQuad.vertices ==> v.y == 0.0
  {
    PlaneQuadIsFlat();
    assert PlaneQuad == Face(Point(0.0, 1.0, 0.0), [Point(0.5, 0.0, -0.5), Point(0.5, 0.0, 0.5), Point(-0.5, 0.0, 0.5), Point(-0.5, 0.0, -0.5)]);
    QuadInCube(Point(0.0, 1.0, 0.0), Point(0.5, 0.0, -0.5), Point(0.5, 0.0, 0.5), Point(-0.5, 0.0, 0.5), Point(-0.5, 0.0, -0.5));
  }

  /** Every cube face lies at distance 0.5 along its axis unit normal; the solid is inside the unit cube, convex, with outward normals. */
  lemma CubeGeometry()
    ensures CubeFaces == [CubeFront, CubeBack, RightSide, CubeLeft, CubeTop, Bottom]
    ensures CubeSide(CubeFront) && CubeSide(CubeBack) && CubeSide(RightSide)
    ensures CubeSide(CubeLeft) && CubeSide(CubeTop) && CubeSide(Bottom)
    ensures Bounded(CubeFaces) && ConvexWithOutwardNormals(CubeFaces)
  {
    CubeFrontGeometry();
    CubeBackGeometry();
    RightSideGeometry();
    CubeLeftGeometry();
    CubeTopGeometry();
    BottomGeometry();
    Solid6(CubeFront, CubeBack, RightSide, CubeLeft, CubeTop, Bottom, CubeCorners);
  }

  /** The six cube normals are six different directions. */
  lemma CubeNormalsDistinct()
    ensures forall i, j :: 0 <= i < j < |CubeFaces| ==> CubeFaces[i].normal != CubeFaces[j].normal
  {
  }

  /** The wedge: inside the unit cube, convex, every normal pointing out of it. */
  lemma WedgeGeometry()
    ensures Bounded(WedgeFaces) && ConvexWithOutwardNormals(WedgeFaces)
  {
    BottomOfWedge();
    RightSideOfWedge();
    WedgeSlantGeometry();
    WedgeNearGeometry();
    WedgeFarGeometry();
    Solid5(Bottom, RightSide, WedgeSlant, WedgeNear, WedgeFar, WedgeCorners);
  }

  /** The slant's normal (-1, 1, 0) is perpendicular to every edge of the slant. */
  lemma WedgeSlantOrthogonal()
    ensures WedgeSlant.normal == Point(-1.0, 1.0, 0.0)
    ensures forall k :: 0 <= k < |WedgeSlant.vertices| ==> Dot(WedgeSlant.normal, Edge(WedgeSlant.vertices, k)) == 0.0
  {
  }

  /** The pyramid, the wedge and the cube share the bottom quad, the cube and the wedge the right side. */
  lemma SharedFaces()
    ensures PyramidFaces[0] == WedgeFaces[0] == CubeFaces[5] == Bottom
    ensures WedgeFaces[1] == CubeFaces[2] == RightSide
  {
  }

  /**
    The pyramid as drawn is inside the unit cube and its four sides meet at the
    apex (0, 0.5, 0), but each side normal is not perpendicular to the edge up to
    the apex, so no side is flat against its normal.
   */
  lemma PyramidSideNormalsTilted()
    ensures PyramidFaces == [Bottom, PyramidRight, PyramidBack, PyramidLeft, PyramidFront]
    ensures forall i :: 1 <= i < |PyramidFaces| ==> PyramidFaces[i].vertices[2] == Point(0.0, 0.5, 0.0)
    ensures Bounded(PyramidFaces)
    ensures forall i :: 1 <= i < |PyramidFaces| ==>
              Dot(PyramidFaces[i].normal, Minus(Apex, PyramidFaces[i].vertices[0])) == 0.75
    ensures forall i :: 1 <= i < |PyramidFaces| ==> !Flat(PyramidFaces[i])
  {
    BottomOfPyramid();
    PyramidRightTilted();
    PyramidBackTilted();
    PyramidLeftTilted();
    PyramidFrontTilted();
  }

  /** With the corrected normals the pyramid is a convex solid whose every normal points out; only the normals changed. */
  lemma CorrectedPyramidGeometry()
    ensures |CorrectedPyramidFaces| == |PyramidFaces|
    ensures forall i :: 0 <= i < |PyramidFaces| ==>
              CorrectedPyramidFaces[i].vertices == PyramidFaces[i].vertices
    ensures Bounded(CorrectedPyramidFaces) && ConvexWithOutwardNormals(CorrectedPyramidFaces)
  {
    BottomOfPyramid();
    CorrectedRightGeometry();
    CorrectedBackGeometry();
    CorrectedLeftGeometry();
    CorrectedFrontGeometry();
    Solid5(Bottom, CorrectedRight, CorrectedBack, CorrectedLeft, CorrectedFront, PyramidCorners);
  }
}
