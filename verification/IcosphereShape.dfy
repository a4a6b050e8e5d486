/** The shape of the subdivided icosahedron, its projection onto the sphere and its windings
    (tests/conformance/analytic.py, `icosphere`), in exact arithmetic. */
module IcosphereShape {
  import opened Icosphere

  function Dot(p: Point, q: Point): real {
    p.x * q.x + p.y * q.y + p.z * q.z
  }

  function Cross(p: Point, q: Point): Point {
    Point(p.y * q.z - p.z * q.y, p.z * q.x - p.x * q.z, p.x * q.y - p.y * q.x)
  }

  /** Six times the volume of the tetrahedron over the origin, positive if `p`, `q`, `r` wind
      counter-clockwise as seen from outside. */
  function Det(p: Point, q: Point, r: Point): real {
    Dot(p, Cross(q, r))
  }

  function Volume(points: seq<Point>, f: Face): real
    requires f.a < |points| && f.b < |points| && f.c < |points|
  {
    Det(points[f.a], points[f.b], points[f.c])
  }

  /** All faces look the same way and have the same volume. */
  ghost predicate Volumes(points: seq<Point>, faces: seq<Face>, v: real) {
    InRange(faces, |points|) && forall i :: 0 <= i < |faces| ==> Volume(points, faces[i]) == v
  }

  predicate Golden(phi: real) {
    phi * phi == phi + 1.0
  }

  predicate Regular(phi: real, f: Face) {
    f.a < |Corners(phi)| && f.b < |Corners(phi)| && f.c < |Corners(phi)| && Volume(Corners(phi), f) == 2.0 * (phi + 1.0)
  }

  lemma AroundTop(phi: real)
    requires Golden(phi)
    ensures Regular(phi, Face(0, 11, 5)) && Regular(phi, Face(0, 5, 1)) && Regular(phi, Face(0, 1, 7))
            && Regular(phi, Face(0, 7, 10)) && Regular(phi, Face(0, 10, 11))
  {
    Cube(phi);
  }

  lemma NextToTop(phi: real)
    requires Golden(phi)
    ensures Regular(phi, Face(1, 5, 9)) && Regular(phi, Face(5, 11, 4)) && Regular(phi, Face(11, 10, 2))
            && Regular(phi, Face(10, 7, 6)) && Regular(phi, Face(7, 1, 8))
  {
    Cube(phi);
  }

  lemma AroundBottom(phi: real)
    requires Golden(phi)
    ensures Regular(phi, Face(3, 9, 4)) && Regular(phi, Face(3, 4, 2)) && Regular(phi, Face(3, 2, 6))
            && Regular(phi, Face(3, 6, 8)) && Regular(phi, Face(3, 8, 9))
  {
    Cube(phi);
  }

  lemma NextToBottom(phi: real)
    requires Golden(phi)
    ensures Regular(phi, Face(4, 9, 5)) && Regular(phi, Face(2, 4, 11)) && Regular(phi, Face(6, 2, 10))
            && Regular(phi, Face(8, 6, 7)) && Regular(phi, Face(9, 8, 1))
  {
    Cube(phi);
  }

  lemma Cube(phi: real)
    requires Golden(phi)
    ensures phi * (phi * phi) == 2.0 * phi + 1.0
  {
    assert phi * (phi * phi) == phi * (phi + 1.0);
  }

  lemma CornerVolume(phi: real, i: nat)
    requires Golden(phi) && i < 20
    ensures |ICOSAHEDRON| == 20 && |Corners(phi)| == 12
    ensures ICOSAHEDRON[i].a < 12 && ICOSAHEDRON[i].b < 12 && ICOSAHEDRON[i].c < 12
    ensures Volume(Corners(phi), ICOSAHEDRON[i]) == 2.0 * (phi + 1.0)
  {
    AroundTop(phi);
    NextToTop(phi);
    AroundBottom(phi);
    NextToBottom(phi);
    assert Regular(phi, ICOSAHEDRON[i]);
  }

  /* ---------- A level keeps the shape ---------- */

  lemma DetCycles(p: Point, q: Point, r: Point)
    ensures Det(p, q, r) == Det(q, r, p)
  {
  }

  lemma MidpointPlace(m: map<Edge, nat>, faces: seq<Face>, n: nat, points: seq<Point>, i: nat, j: Corner)
    requires Level(m, faces, n) && Halfway(m, n, points) && i < |faces|
    ensures At(faces[i], j) < n && At(faces[i], Next(j)) < n && Mid(m, faces[i], j) < |points|
    ensures points[Mid(m, faces[i], j)] == Half(points[At(faces[i], j)], points[At(faces[i], Next(j))])
  {
  }

  lemma PartVolume(m: map<Edge, nat>, faces: seq<Face>, n: nat, points: seq<Point>, i: nat, t: nat)
    requires Level(m, faces, n) && Halfway(m, n, points) && i < |faces| && t < 4
    ensures Proper(faces[i], |points|) && Proper(Part(m, faces[i], t), |points|)
    ensures Volume(points, Part(m, faces[i], t)) == Volume(points, faces[i]) / 4.0
  {
    var f := faces[i];
    PartProper(m, faces, n, i, t);
    assert Proper(f, n);
    MidpointPlace(m, faces, n, points, i, 0);
    MidpointPlace(m, faces, n, points, i, 1);
    MidpointPlace(m, faces, n, points, i, 2);
    PartOfTriangle(points[f.a], points[f.b], points[f.c], t);
  }

  lemma CornerPart(a: Point, b: Point, c: Point)
    ensures Det(a, Half(a, b), Half(c, a)) == Det(a, b, c) / 4.0
  {
  }

  lemma MiddlePart(a: Point, b: Point, c: Point)
    ensures Det(Half(a, b), Half(b, c), Half(c, a)) == Det(a, b, c) / 4.0
  {
  }

  /** Each of the four parts of a triangle has a quarter of its volume. */
  lemma PartOfTriangle(a: Point, b: Point, c: Point, t: nat)
    requires t < 4
    ensures t == 0 ==> Det(a, Half(a, b), Half(c, a)) == Det(a, b, c) / 4.0
    ensures t == 1 ==> Det(b, Half(b, c), Half(a, b)) == Det(a, b, c) / 4.0
    ensures t == 2 ==> Det(c, Half(c, a), Half(b, c)) == Det(a, b, c) / 4.0
    ensures t == 3 ==> Det(Half(a, b), Half(b, c), Half(c, a)) == Det(a, b, c) / 4.0
  {
    if t == 0 {
      CornerPart(a, b, c);
    } else if t == 1 {
      CornerPart(b, c, a);
      DetCycles(a, b, c);
    } else if t == 2 {
      CornerPart(c, a, b);
      DetCycles(c, a, b);
    } else {
      MiddlePart(a, b, c);
    }
  }

  /** A level leaves every face flat on the face it came from, a quarter of it, with its winding. */
  lemma VolumesRefine(m: map<Edge, nat>, faces: seq<Face>, n: nat, points: seq<Point>, v: real)
    requires Level(m, faces, n) && Halfway(m, n, points) && Volumes(points[..n], faces, v)
    ensures Volumes(points, Refined(m, faces), v / 4.0)
  {
    var r := Refined(m, faces);
    forall p | 0 <= p < |r|
      ensures Proper(r[p], |points|) && Volume(points, r[p]) == v / 4.0
    {
      PartVolume(m, faces, n, points, p / 4, p % 4);
      assert Volume(points[..n], faces[p / 4]) == v;
    }
  }

  /** The origin is a corner of no face with a volume, so that every point has a direction. */
  lemma NoneAtOrigin(points: seq<Point>, faces: seq<Face>, v: real, k: nat)
    requires Volumes(points, faces, v) && v != 0.0 && AllUsed(faces, |points|) && k < |points|
    ensures points[k] != ORIGIN
  {
    assert Uses(faces, k);
    var i, j: Corner :| 0 <= i < |faces| && At(faces[i], j) == k;
    var f := faces[i];
    assert Volume(points, f) == v;
    DetCycles(points[f.a], points[f.b], points[f.c]);
    DetCycles(points[f.b], points[f.c], points[f.a]);
  }

  lemma Square(x: real)
    ensures x * x >= 0.0 && (x != 0.0 ==> x * x > 0.0)
  {
  }

  /* ---------- Onto the sphere ---------- */

  const ORIGIN := Point(0.0, 0.0, 0.0)

  /** The Euclidean length. */
  ghost predicate IsNorm(norm: Point -> real) {
    forall p :: norm(p) * norm(p) == Dot(p, p) && norm(p) >= 0.0 && (p != ORIGIN ==> norm(p) > 0.0)
  }

  function Scale(s: real, p: Point): Point {
    Point(s * p.x, s * p.y, s * p.z)
  }

  /** A common factor comes out of a sum of products. */
  lemma CommonFactor(s: real, a: real, b: real, c: real, x: real, y: real, z: real)
    ensures (s * a) * x + (s * b) * y + (s * c) * z == s * (a * x + b * y + c * z)
  {
    Associate(s, a, x);
    Associate(s, b, y);
    Associate(s, c, z);
    Distribute(s, a * x, b * y, c * z);
  }

  lemma Associate(s: real, a: real, x: real)
    ensures (s * a) * x == s * (a * x)
  {
  }

  lemma Distribute(s: real, a: real, b: real, c: real)
    ensures s * a + s * b + s * c == s * (a + b + c)
  {
  }

  lemma DotOfScaled(s: real, p: Point, q: Point)
    ensures Dot(Scale(s, p), q) == s * Dot(p, q)
  {
    CommonFactor(s, p.x, p.y, p.z, q.x, q.y, q.z);
  }

  lemma DotCommutes(p: Point, q: Point)
    ensures Dot(p, q) == Dot(q, p)
  {
  }

  lemma DetOfScaled(s: real, p: Point, q: Point, r: Point)
    ensures Det(Scale(s, p), q, r) == s * Det(p, q, r)
  {
    DotOfScaled(s, p, Cross(q, r));
  }

  /** A positive or negative factor on a corner keeps or turns the side of a triangle. */
  lemma SideOfScaled(s: real, p: Point, q: Point, r: Point)
    ensures Det(p, q, r) > 0.0 && s > 0.0 ==> Det(Scale(s, p), q, r) > 0.0
    ensures Det(p, q, r) > 0.0 && s < 0.0 ==> Det(Scale(s, p), q, r) < 0.0
    ensures Det(p, q, r) < 0.0 && s > 0.0 ==> Det(Scale(s, p), q, r) < 0.0
    ensures Det(p, q, r) < 0.0 && s < 0.0 ==> Det(Scale(s, p), q, r) > 0.0
    ensures s == 0.0 ==> Det(Scale(s, p), q, r) == 0.0
  {
    DetOfScaled(s, p, q, r);
    SignOfProduct(s, Det(p, q, r));
  }

  function Minus(p: Point, q: Point): Point {
    Point(p.x - q.x, p.y - q.y, p.z - q.z)
  }

  /** The test a winding is fixed by: the normal against the direction of the centroid. */
  function Outward(p: Point, q: Point, r: Point): real {
    Dot(Cross(Minus(q, p), Minus(r, p)),
        Point((p.x + q.x + r.x) / 3.0, (p.y + q.y + r.y) / 3.0, (p.z + q.z + r.z) / 3.0))
  }

  /** ... which is the volume over the origin. */
  lemma OutwardIsVolume(p: Point, q: Point, r: Point)
    ensures Outward(p, q, r) == Det(p, q, r)
  {
  }

  function Onto(p: Point, radius: real, norm: Point -> real): Point
    requires norm(p) != 0.0
  {
    Scale(radius / norm(p), p)
  }

  lemma OntoSphere(p: Point, radius: real, norm: Point -> real)
    requires IsNorm(norm) && norm(p) > 0.0
    ensures Dot(Onto(p, radius, norm), Onto(p, radius, norm)) == radius * radius
  {
    var s, n := radius / norm(p), norm(p);
    DotOfScaled(s, p, Scale(s, p));
    DotCommutes(p, Scale(s, p));
    DotOfScaled(s, p, p);
    SquareOfQuotient(radius, n, Dot(p, p));
  }

  lemma SquareOfQuotient(a: real, n: real, d: real)
    requires n > 0.0 && n * n == d
    ensures (a / n) * ((a / n) * d) == a * a
  {
    var s := a / n;
    assert s * n == a;
    Associate(s, n, n);
    assert s * d == a * n;
    Associate(s, n, a);
    assert s * (a * n) == a * a;
  }

  /** Projection keeps the side a face looks to, or turns every face over if the radius is
      negative. */
  lemma OntoKeepsSides(p: Point, q: Point, r: Point, radius: real, norm: Point -> real)
    requires norm(p) > 0.0 && norm(q) > 0.0 && norm(r) > 0.0 && Det(p, q, r) > 0.0
    ensures var d := Det(Onto(p, radius, norm), Onto(q, radius, norm), Onto(r, radius, norm));
            (radius > 0.0 ==> d > 0.0) && (radius < 0.0 ==> d < 0.0) && (radius == 0.0 ==> d == 0.0)
  {
    var s, t, u := radius / norm(p), radius / norm(q), radius / norm(r);
    Quotient(radius, norm(p));
    Quotient(radius, norm(q));
    Quotient(radius, norm(r));
    var p', q', r' := Scale(s, p), Scale(t, q), Scale(u, r);
    SideOfScaled(s, p, q, r);
    DetCycles(p', q, r);
    SideOfScaled(t, q, r, p');
    DetCycles(q', r, p');
    SideOfScaled(u, r, p', q');
    DetCycles(r', p', q');
  }

  lemma Quotient(a: real, b: real)
    requires b > 0.0
    ensures (a > 0.0 ==> a / b > 0.0) && (a < 0.0 ==> a / b < 0.0) && (a == 0.0 ==> a / b == 0.0)
  {
  }

  lemma SignOfProduct(a: real, b: real)
    ensures (a > 0.0 && b > 0.0) || (a < 0.0 && b < 0.0) ==> a * b > 0.0
    ensures (a > 0.0 && b < 0.0) || (a < 0.0 && b > 0.0) ==> a * b < 0.0
    ensures a == 0.0 || b == 0.0 ==> a * b == 0.0
  {
  }

  /* ---------- Windings ---------- */

  function Flip(f: Face): Face {
    Face(f.a, f.c, f.b)
  }

  function AllFlipped(faces: seq<Face>): (r: seq<Face>)
    ensures |r| == |faces| && forall i :: 0 <= i < |faces| ==> r[i] == Flip(faces[i])
  {
    seq(|faces|, i requires 0 <= i < |faces| => Flip(faces[i]))
  }

  /** A face turned over leaves by the same edges, reversed. */
  lemma OutOfFlip(f: Face, j: Corner)
    ensures Out(Flip(f), j) == Reverse(Out(f, 2 - j))
  {
  }

  lemma FlippedHas(faces: seq<Face>, e: Edge)
    requires Has(faces, Reverse(e))
    ensures Has(AllFlipped(faces), e)
  {
    var i, j: Corner :| 0 <= i < |faces| && Out(faces[i], j) == Reverse(e);
    OutOfFlip(faces[i], 2 - j);
    assert Out(AllFlipped(faces)[i], 2 - j) == e;
  }

  lemma FlippedEdges(faces: seq<Face>)
    requires EdgesOnce(faces) && ReversesOccur(faces)
    ensures EdgesOnce(AllFlipped(faces)) && ReversesOccur(AllFlipped(faces))
  {
    var r := AllFlipped(faces);
    forall i, k, j: Corner, l: Corner | 0 <= i < |r| && 0 <= k < |r| && Out(r[i], j) == Out(r[k], l)
        ensures i == k && j == l {
      OutOfFlip(faces[i], j);
      OutOfFlip(faces[k], l);
      assert Out(faces[i], 2 - j) == Out(faces[k], 2 - l);
    }
    forall i, j: Corner | 0 <= i < |r| ensures Has(r, Reverse(Out(r[i], j))) {
      OutOfFlip(faces[i], j);
      assert Has(faces, Reverse(Out(faces[i], 2 - j)));
      FlippedHas(faces, Reverse(Out(r[i], j)));
    }
  }

  lemma FlippedMirror(f: Face, g: Face, j: Corner, l: Corner)
    requires Mirror(Flip(f), Flip(g), j, l)
    ensures exists j': Corner, l': Corner :: Mirror(f, g, j', l')
  {
    var j': Corner := if j == 0 then 0 else 3 - j;
    var l': Corner := if l == 0 then 0 else 3 - l;
    assert Mirror(f, g, j', l');
  }

  lemma FlippedIsClosed(faces: seq<Face>, n: nat)
    requires Closed(faces, n)
    ensures Closed(AllFlipped(faces), n)
  {
    var r := AllFlipped(faces);
    FlippedEdges(faces);
    forall i | 0 <= i < |r| ensures Proper(r[i], n) {
      assert Proper(faces[i], n);
    }
    forall i, k, j: Corner, l: Corner | 0 <= i < |r| && 0 <= k < |r| ensures !Mirror(r[i], r[k], j, l) {
      if Mirror(r[i], r[k], j, l) {
        FlippedMirror(faces[i], faces[k], j, l);
      }
    }
    forall v | 0 <= v < n ensures Uses(r, v) {
      FlippedUses(faces, v);
    }
  }

  lemma FlippedUses(faces: seq<Face>, v: nat)
    requires Uses(faces, v)
    ensures Uses(AllFlipped(faces), v)
  {
    var i, j: Corner :| 0 <= i < |faces| && At(faces[i], j) == v;
    var j': Corner := if j == 0 then 0 else 3 - j;
    assert At(AllFlipped(faces)[i], j') == v;
  }

  /* ---------- The program ---------- */

  datatype Built = ValueError | Built(coordinates: seq<Point>, faces: seq<Face>)

  ghost function Pow4(k: nat): nat {
    if k == 0 then 1 else 4 * Pow4(k - 1)
  }

  /** The volume of a face after `k` levels. */
  ghost function VolumeAt(phi: real, k: nat): real {
    if k == 0 then 2.0 * (phi + 1.0) else VolumeAt(phi, k - 1) / 4.0
  }

  lemma {:induction false} VolumeIsPositive(phi: real, k: nat)
    requires Golden(phi)
    ensures VolumeAt(phi, k) > 0.0
  {
    if k == 0 {
      Square(phi);
    } else {
      VolumeIsPositive(phi, k - 1);
    }
  }

  /** One level of a closed surface whose faces all look the same way. */
  method NextLevel(sphere: Sphere, faces: seq<Face>, ghost v: real) returns (refined: seq<Face>)
    requires Closed(faces, |sphere.points|) && Volumes(sphere.points, faces, v)
    modifies sphere
    ensures Closed(refined, |sphere.points|) && Volumes(sphere.points, refined, v / 4.0)
    ensures |refined| == 4 * |faces| && 2 * (|sphere.points| - old(|sphere.points|)) == 3 * |faces|
  {
    ghost var n := |sphere.points|;
    KeyCount(faces, n);
    refined := sphere.Refine(faces);
    RefinedIsClosed(sphere.midpoints, faces, n);
    VolumesRefine(sphere.midpoints, faces, n, sphere.points, v);
    assert |sphere.midpoints| == |sphere.midpoints.Keys|;
  }

  /** The subdivision: a closed surface of 20 * 4^n flat faces of one size, all winding the same
      way about the origin, over 10 * 4^n + 2 points, every one of them used. */
  method Subdivide(phi: real, subdivisions: nat) returns (points: seq<Point>, faces: seq<Face>)
    requires Golden(phi)
    ensures |faces| == 20 * Pow4(subdivisions) && |points| == 10 * Pow4(subdivisions) + 2
    ensures Closed(faces, |points|) && Volumes(points, faces, VolumeAt(phi, subdivisions))
  {
    var sphere := new Sphere(phi);
    faces := ICOSAHEDRON;
    IcosahedronIsClosed();
    CornersAreRegular(phi);
    for level := 0 to subdivisions
      invariant Closed(faces, |sphere.points|) && Volumes(sphere.points, faces, VolumeAt(phi, level))
      invariant |faces| == 20 * Pow4(level) && |sphere.points| == 10 * Pow4(level) + 2
    {
      faces := NextLevel(sphere, faces, VolumeAt(phi, level));
    }
    points := sphere.points;
  }

  lemma CornersAreRegular(phi: real)
    requires Golden(phi)
    ensures |Corners(phi)| == 12 && Volumes(Corners(phi), ICOSAHEDRON, VolumeAt(phi, 0))
  {
    forall i | 0 <= i < |ICOSAHEDRON|
      ensures ICOSAHEDRON[i].a < 12 && ICOSAHEDRON[i].b < 12 && ICOSAHEDRON[i].c < 12
      ensures Volume(Corners(phi), ICOSAHEDRON[i]) == 2.0 * (phi + 1.0)
    {
      CornerVolume(phi, 0);
      CornerVolume(phi, i);
    }
  }

  /** The windings, each fixed by its own test. */
  method Orient(coordinates: seq<Point>, faces: seq<Face>) returns (oriented: seq<Face>)
    requires InRange(faces, |coordinates|)
    ensures |oriented| == |faces|
    ensures forall i :: 0 <= i < |faces| ==>
        oriented[i] == if Volume(coordinates, faces[i]) >= 0.0 then faces[i] else Flip(faces[i])
  {
    oriented := [];
    for index := 0 to |faces|
      invariant |oriented| == index
      invariant forall i :: 0 <= i < index ==>
          oriented[i] == if Volume(coordinates, faces[i]) >= 0.0 then faces[i] else Flip(faces[i])
    {
      var f := faces[index];
      var v1, v2, v3 := coordinates[f.a], coordinates[f.b], coordinates[f.c];
      OutwardIsVolume(v1, v2, v3);
      oriented := oriented + [if Outward(v1, v2, v3) >= 0.0 then f else Flip(f)];
    }
  }

  /** Projected, all faces look to the side that `radius` says. */
  lemma ProjectedSides(points: seq<Point>, faces: seq<Face>, v: real, radius: real, norm: Point -> real,
                       coordinates: seq<Point>, i: nat)
    requires IsNorm(norm) && v > 0.0 && Volumes(points, faces, v) && AllUsed(faces, |points|) && i < |faces|
    requires |coordinates| == |points| && forall k :: 0 <= k < |points| ==>
        norm(points[k]) > 0.0 && coordinates[k] == Onto(points[k], radius, norm)
    ensures var d := Volume(coordinates, faces[i]);
            (radius > 0.0 ==> d > 0.0) && (radius < 0.0 ==> d < 0.0) && (radius == 0.0 ==> d == 0.0)
  {
    var f := faces[i];
    assert Volume(points, f) == v;
    OntoKeepsSides(points[f.a], points[f.b], points[f.c], radius, norm);
  }

  /** The test agrees with itself on all faces, so that fixing each winding by its own test leaves
      the surface closed. */
  lemma OrientedIsClosed(coordinates: seq<Point>, faces: seq<Face>, oriented: seq<Face>, radius: real)
    requires Closed(faces, |coordinates|) && InRange(faces, |coordinates|) && |oriented| == |faces|
    requires forall i :: 0 <= i < |faces| ==>
               && (radius > 0.0 ==> Volume(coordinates, faces[i]) > 0.0)
               && (radius < 0.0 ==> Volume(coordinates, faces[i]) < 0.0)
               && (radius == 0.0 ==> Volume(coordinates, faces[i]) == 0.0)
    requires forall i :: 0 <= i < |faces| ==>
        oriented[i] == if Volume(coordinates, faces[i]) >= 0.0 then faces[i] else Flip(faces[i])
    ensures oriented == if radius >= 0.0 then faces else AllFlipped(faces)
    ensures Closed(oriented, |coordinates|)
  {
    if radius < 0.0 {
      assert oriented == AllFlipped(faces);
      FlippedIsClosed(faces, |coordinates|);
    }
  }

  lemma FlippedVolume(coordinates: seq<Point>, f: Face)
    requires f.a < |coordinates| && f.b < |coordinates| && f.c < |coordinates|
    ensures Volume(coordinates, Flip(f)) == -Volume(coordinates, f)
  {
  }

  /** `icosphere`: points on the sphere of the radius and triangles over them that all look
      outward, closed, 20 * 4^n of them over 10 * 4^n + 2 points. */
  method Build(radius: real, subdivisions: int, phi: real, norm: Point -> real) returns (r: Built)
    requires Golden(phi) && IsNorm(norm)
    ensures r.ValueError? <==> subdivisions < 0
    ensures r.Built? ==>
              && |r.faces| == 20 * Pow4(subdivisions) && |r.coordinates| == 10 * Pow4(subdivisions) + 2
              && Closed(r.faces, |r.coordinates|) && InRange(r.faces, |r.coordinates|)
              && (forall k :: 0 <= k < |r.coordinates| ==> Dot(r.coordinates[k], r.coordinates[k]) == radius * radius)
              && (radius != 0.0 ==> forall i :: 0 <= i < |r.faces| ==> Volume(r.coordinates, r.faces[i]) > 0.0)
  {
    if subdivisions < 0 {
      return ValueError;
    }
    var points, faces := Subdivide(phi, subdivisions);
    ghost var v := VolumeAt(phi, subdivisions);
    VolumeIsPositive(phi, subdivisions);
    forall k | 0 <= k < |points| ensures norm(points[k]) > 0.0 {
      NoneAtOrigin(points, faces, v, k);
    }
    var coordinates := seq(|points|, k requires 0 <= k < |points| => Onto(points[k], radius, norm));
    var oriented := Orient(coordinates, faces);
    forall k | 0 <= k < |coordinates| ensures Dot(coordinates[k], coordinates[k]) == radius * radius {
      OntoSphere(points[k], radius, norm);
    }
    forall i | 0 <= i < |faces|
      ensures (radius > 0.0 ==> Volume(coordinates, faces[i]) > 0.0)
      ensures (radius < 0.0 ==> Volume(coordinates, faces[i]) < 0.0)
      ensures (radius == 0.0 ==> Volume(coordinates, faces[i]) == 0.0)
    {
      ProjectedSides(points, faces, v, radius, norm, coordinates, i);
    }
    OrientedIsClosed(coordinates, faces, oriented, radius);
    forall i | 0 <= i < |faces| && radius != 0.0 ensures Volume(coordinates, oriented[i]) > 0.0 {
      FlippedVolume(coordinates, faces[i]);
    }
    r := Built(coordinates, oriented);
  }
}
