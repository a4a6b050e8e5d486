/** The subdivision of an icosahedron (tests/conformance/analytic.py, `icosphere`): each level puts
    one new point on every edge and splits every face in four, and the surface stays closed.
    `IcosphereShape` adds where the points lie and which way the faces look. */
module Icosphere {

  datatype Point = Point(x: real, y: real, z: real)

  datatype Face = Face(a: nat, b: nat, c: nat)

  type Edge = (nat, nat)

  type Corner = j: nat | j < 3

  function Half(p: Point, q: Point): Point {
    Point((p.x + q.x) / 2.0, (p.y + q.y) / 2.0, (p.z + q.z) / 2.0)
  }

  function At(f: Face, j: Corner): nat {
    if j == 0 then f.a else if j == 1 then f.b else f.c
  }

  function Next(j: Corner): Corner {
    if j == 2 then 0 else j + 1
  }

  function Prev(j: Corner): Corner {
    if j == 0 then 2 else j - 1
  }

  /** The directed edge that leaves corner `j`. */
  function Out(f: Face, j: Corner): Edge {
    (At(f, j), At(f, Next(j)))
  }

  function Reverse(e: Edge): Edge {
    (e.1, e.0)
  }

  /** The key of an edge in the table of midpoints, the same for both directions. */
  function Key(e: Edge): Edge {
    if e.0 < e.1 then e else Reverse(e)
  }

  /* ---------- Closed surfaces ---------- */

  ghost predicate Proper(f: Face, n: nat) {
    f.a < n && f.b < n && f.c < n && f.a != f.b && f.b != f.c && f.c != f.a
  }

  ghost predicate AllProper(faces: seq<Face>, n: nat) {
    forall i :: 0 <= i < |faces| ==> Proper(faces[i], n)
  }

  /** No directed edge occurs twice. */
  ghost predicate EdgesOnce(faces: seq<Face>) {
    forall i, k, j: Corner, l: Corner ::
      0 <= i < |faces| && 0 <= k < |faces| && Out(faces[i], j) == Out(faces[k], l) ==> i == k && j == l
  }

  ghost predicate Has(faces: seq<Face>, e: Edge) {
    exists i, j: Corner :: 0 <= i < |faces| && Out(faces[i], j) == e
  }

  ghost predicate ReversesOccur(faces: seq<Face>) {
    forall i, j: Corner :: 0 <= i < |faces| ==> Has(faces, Reverse(Out(faces[i], j)))
  }

  /** `g` is `f` with the opposite winding, corner `l` of the one being corner `j` of the other. */
  predicate Mirror(f: Face, g: Face, j: Corner, l: Corner) {
    At(g, l) == At(f, j) && At(g, Next(l)) == At(f, Prev(j)) && At(g, Prev(l)) == At(f, Next(j))
  }

  /** No two faces are back to back. Without it the inner edges of two such faces would meet at
      the next level. */
  ghost predicate NoPillow(faces: seq<Face>) {
    forall i, k, j: Corner, l: Corner :: 0 <= i < |faces| && 0 <= k < |faces| ==> !Mirror(faces[i], faces[k], j, l)
  }

  ghost predicate Uses(faces: seq<Face>, v: nat) {
    exists i, j: Corner :: 0 <= i < |faces| && At(faces[i], j) == v
  }

  ghost predicate AllUsed(faces: seq<Face>, n: nat) {
    forall v :: 0 <= v < n ==> Uses(faces, v)
  }

  ghost predicate Closed(faces: seq<Face>, n: nat) {
    AllProper(faces, n) && AllUsed(faces, n) && EdgesOnce(faces) && ReversesOccur(faces) && NoPillow(faces)
  }

  /* ---------- One level ---------- */

  ghost function Keys(faces: seq<Face>): set<Edge> {
    set i, j: Corner | 0 <= i < |faces| :: Key(Out(faces[i], j))
  }

  /** Every edge has a midpoint of its own among the points from `n` on, and every one of those
      is a midpoint. */
  ghost predicate Table(m: map<Edge, nat>, n: nat) {
    && (forall e :: e in m ==> n <= m[e] < n + |m|)
    && OneToOne(m)
    && (forall v :: n <= v < n + |m| ==> IsMidpoint(m, v))
  }

  ghost predicate OneToOne(m: map<Edge, nat>) {
    forall e, d :: e in m && d in m && m[e] == m[d] ==> e == d
  }

  ghost predicate IsMidpoint(m: map<Edge, nat>, v: nat) {
    exists e :: e in m && m[e] == v
  }

  /** The midpoint of the edge that leaves corner `j`. */
  function Mid(m: map<Edge, nat>, f: Face, j: Corner): nat {
    if Key(Out(f, j)) in m then m[Key(Out(f, j))] else 0
  }

  /** The four faces that replace `f`: one at each corner and one in the middle. */
  function Part(m: map<Edge, nat>, f: Face, t: nat): Face {
    if t == 0 then Face(f.a, Mid(m, f, 0), Mid(m, f, 2))
    else if t == 1 then Face(f.b, Mid(m, f, 1), Mid(m, f, 0))
    else if t == 2 then Face(f.c, Mid(m, f, 2), Mid(m, f, 1))
    else Face(Mid(m, f, 0), Mid(m, f, 1), Mid(m, f, 2))
  }

  function Refined(m: map<Edge, nat>, faces: seq<Face>): (r: seq<Face>)
    ensures |r| == 4 * |faces|
  {
    seq(4 * |faces|, p requires 0 <= p < 4 * |faces| => Part(m, faces[p / 4], p % 4))
  }

  /* ---------- The icosahedron ---------- */

  const ICOSAHEDRON: seq<Face> := [
    Face(0, 11, 5), Face(0, 5, 1), Face(0, 1, 7), Face(0, 7, 10), Face(0, 10, 11),
    Face(1, 5, 9), Face(5, 11, 4), Face(11, 10, 2), Face(10, 7, 6), Face(7, 1, 8),
    Face(3, 9, 4), Face(3, 4, 2), Face(3, 2, 6), Face(3, 6, 8), Face(3, 8, 9),
    Face(4, 9, 5), Face(2, 4, 11), Face(6, 2, 10), Face(8, 6, 7), Face(9, 8, 1)]

  /** Its twelve corners, `phi` being the golden ratio. */
  function Corners(phi: real): seq<Point> {
    [Point(-1.0, phi, 0.0), Point(1.0, phi, 0.0), Point(-1.0, -phi, 0.0), Point(1.0, -phi, 0.0),
     Point(0.0, -1.0, phi), Point(0.0, 1.0, phi), Point(0.0, -1.0, -phi), Point(0.0, 1.0, -phi),
     Point(phi, 0.0, -1.0), Point(phi, 0.0, 1.0), Point(-phi, 0.0, -1.0), Point(-phi, 0.0, 1.0)]
  }

  /** The face and corner that a directed edge of the icosahedron leaves. */
  function Place(e: Edge): (nat, nat) {
    var (u, v) := e;
    if u == 0 then (if v == 1 then (2, 0) else if v == 5 then (1, 0) else if v == 7 then (3, 0)
                    else if v == 10 then (4, 0) else (0, 0))
    else if u == 1 then (if v == 0 then (1, 2) else if v == 5 then (5, 0) else if v == 7 then (2, 1)
                         else if v == 8 then (9, 1) else (19, 2))
    else if u == 2 then (if v == 3 then (11, 2) else if v == 4 then (16, 0) else if v == 6 then (12, 1)
                         else if v == 10 then (17, 1) else (7, 2))
    else if u == 3 then (if v == 2 then (12, 0) else if v == 4 then (11, 0) else if v == 6 then (13, 0)
                         else if v == 8 then (14, 0) else (10, 0))
    else if u == 4 then (if v == 2 then (11, 1) else if v == 3 then (10, 2) else if v == 5 then (6, 2)
                         else if v == 9 then (15, 0) else (16, 1))
    else if u == 5 then (if v == 0 then (0, 2) else if v == 1 then (1, 1) else if v == 4 then (15, 2)
                         else if v == 9 then (5, 1) else (6, 0))
    else if u == 6 then (if v == 2 then (17, 0) else if v == 3 then (12, 2) else if v == 7 then (18, 1)
                         else if v == 8 then (13, 1) else (8, 2))
    else if u == 7 then (if v == 0 then (2, 2) else if v == 1 then (9, 0) else if v == 6 then (8, 1)
                         else if v == 8 then (18, 2) else (3, 1))
    else if u == 8 then (if v == 1 then (19, 1) else if v == 3 then (13, 2) else if v == 6 then (18, 0)
                         else if v == 7 then (9, 2) else (14, 1))
    else if u == 9 then (if v == 1 then (5, 2) else if v == 3 then (14, 2) else if v == 4 then (10, 1)
                         else if v == 5 then (15, 1) else (19, 0))
    else if u == 10 then (if v == 0 then (3, 2) else if v == 2 then (7, 1) else if v == 6 then (17, 2)
                          else if v == 7 then (8, 0) else (4, 1))
    else if u == 11 then (if v == 0 then (4, 2) else if v == 2 then (16, 2) else if v == 4 then (6, 1)
                          else if v == 5 then (0, 1) else (7, 0))
    else (0, 0)
  }

  lemma PlaceInverts(i: nat, j: Corner)
    requires i < 20
    ensures |ICOSAHEDRON| == 20
    ensures Place(Out(ICOSAHEDRON[i], j)) == (i, j)
  {
  }

  lemma IcosahedronFacts(i: nat, j: Corner)
    requires i < 20
    ensures |ICOSAHEDRON| == 20
    ensures Proper(ICOSAHEDRON[i], 12)
    ensures var (k, l) := Place(Reverse(Out(ICOSAHEDRON[i], j)));
            k < 20 && l < 3 && k != Place(Reverse(Out(ICOSAHEDRON[i], Prev(j)))).0
            && Out(ICOSAHEDRON[k], l) == Reverse(Out(ICOSAHEDRON[i], j))
  {
  }

  lemma IcosahedronUses(v: nat)
    requires v < 12
    ensures Uses(ICOSAHEDRON, v)
  {
    var u := if v == 0 then 1 else if v == 1 then 0 else if v == 2 then 3 else if v == 3 then 2 else if v < 6 then 9 - v
             else if v == 6 then 7 else if v == 7 then 6 else if v == 8 then 9 else if v == 9 then 8 else 21 - v;
    var (i, j) := Place((v, u));
    assert At(ICOSAHEDRON[i], j) == v;
  }

  lemma IcosahedronEdgesOnce()
    ensures EdgesOnce(ICOSAHEDRON)
  {
    forall i, k, j: Corner, l: Corner
      | 0 <= i < |ICOSAHEDRON| && 0 <= k < |ICOSAHEDRON| && Out(ICOSAHEDRON[i], j) == Out(ICOSAHEDRON[k], l)
      ensures i == k && j == l
    {
      IcosahedronFacts(0, 0);
      PlaceInverts(i, j);
      PlaceInverts(k, l);
    }
  }

  lemma IcosahedronFacesApart(i: nat, k: nat, j: Corner, l: Corner)
    requires i < 20 && k < 20
    ensures |ICOSAHEDRON| == 20 && !Mirror(ICOSAHEDRON[i], ICOSAHEDRON[k], j, l)
  {
    IcosahedronFacts(i, j);
    PlaceInverts(k, Prev(l));
    PlaceInverts(k, l);
  }

  lemma IcosahedronReverses()
    ensures ReversesOccur(ICOSAHEDRON)
  {
    forall i, j: Corner | 0 <= i < |ICOSAHEDRON| ensures Has(ICOSAHEDRON, Reverse(Out(ICOSAHEDRON[i], j))) {
      IcosahedronFacts(0, 0);
      IcosahedronFacts(i, j);
    }
  }

  lemma IcosahedronNoPillow()
    ensures NoPillow(ICOSAHEDRON)
  {
    forall i, k, j: Corner, l: Corner | 0 <= i < |ICOSAHEDRON| && 0 <= k < |ICOSAHEDRON|
      ensures !Mirror(ICOSAHEDRON[i], ICOSAHEDRON[k], j, l)
    {
      IcosahedronFacts(0, 0);
      IcosahedronFacesApart(i, k, j, l);
    }
  }

  lemma IcosahedronProper()
    ensures AllProper(ICOSAHEDRON, 12) && AllUsed(ICOSAHEDRON, 12)
  {
    forall i | 0 <= i < |ICOSAHEDRON| ensures Proper(ICOSAHEDRON[i], 12) {
      IcosahedronFacts(0, 0);
      IcosahedronFacts(i, 0);
    }
    forall v | 0 <= v < 12 ensures Uses(ICOSAHEDRON, v) {
      IcosahedronUses(v);
    }
  }

  lemma IcosahedronIsClosed()
    ensures |ICOSAHEDRON| == 20 && Closed(ICOSAHEDRON, 12)
  {
    IcosahedronFacts(0, 0);
    IcosahedronProper();
    IcosahedronEdgesOnce();
    IcosahedronReverses();
    IcosahedronNoPillow();
  }

  /* ---------- A level keeps the surface closed ---------- */

  /** The table of a level: exactly one midpoint for every edge of the surface. */
  ghost predicate Level(m: map<Edge, nat>, faces: seq<Face>, n: nat) {
    AllProper(faces, n) && Table(m, n) && m.Keys == Keys(faces)
  }

  lemma MidBounds(m: map<Edge, nat>, faces: seq<Face>, n: nat, i: nat, j: Corner)
    requires Level(m, faces, n) && i < |faces|
    ensures Key(Out(faces[i], j)) in m
    ensures n <= Mid(m, faces[i], j) < n + |m|
  {
  }

  /** Edges with the same midpoint are the same up to direction. */
  lemma MidTellsEdges(m: map<Edge, nat>, faces: seq<Face>, n: nat, i: nat, j: Corner, k: nat, l: Corner)
    requires Level(m, faces, n) && i < |faces| && k < |faces| && Mid(m, faces[i], j) == Mid(m, faces[k], l)
    ensures Out(faces[i], j) == Out(faces[k], l) || Out(faces[i], j) == Reverse(Out(faces[k], l))
  {
  }

  /** The edges of the four parts, from the corners and midpoints of the whole. */
  lemma PartEdges(m: map<Edge, nat>, f: Face, t: nat, e: Corner)
    requires t < 4
    ensures Out(Part(m, f, t), e) ==
            if t == 3 then (Mid(m, f, e), Mid(m, f, Next(e)))
            else if e == 0 then (At(f, t), Mid(m, f, t))
            else if e == 1 then (Mid(m, f, t), Mid(m, f, Prev(t)))
            else (Mid(m, f, Prev(t)), At(f, t))
  {
  }

  lemma RefinedAt(m: map<Edge, nat>, faces: seq<Face>, i: nat, t: nat)
    requires i < |faces| && t < 4
    ensures 4 * i + t < |Refined(m, faces)| && Refined(m, faces)[4 * i + t] == Part(m, faces[i], t)
  {
  }

  lemma MidsDiffer(m: map<Edge, nat>, faces: seq<Face>, n: nat, i: nat, j: Corner)
    requires Level(m, faces, n) && i < |faces|
    ensures Mid(m, faces[i], j) != Mid(m, faces[i], Next(j))
  {
  }

  lemma PartProper(m: map<Edge, nat>, faces: seq<Face>, n: nat, i: nat, t: nat)
    requires Level(m, faces, n) && i < |faces| && t < 4
    ensures Proper(Part(m, faces[i], t), n + |m|)
  {
    MidBounds(m, faces, n, i, 0);
    MidBounds(m, faces, n, i, 1);
    MidBounds(m, faces, n, i, 2);
    MidsDiffer(m, faces, n, i, 0);
    MidsDiffer(m, faces, n, i, 1);
    MidsDiffer(m, faces, n, i, 2);
    PartProperFrom(m, faces[i], t, n, n + |m|);
  }

  lemma PartProperFrom(m: map<Edge, nat>, f: Face, t: nat, n: nat, end: nat)
    requires Proper(f, n) && t < 4 && n <= Mid(m, f, 0) < end && n <= Mid(m, f, 1) < end && n <= Mid(m, f, 2) < end
    requires Mid(m, f, 0) != Mid(m, f, 1) && Mid(m, f, 1) != Mid(m, f, 2) && Mid(m, f, 2) != Mid(m, f, 0)
    ensures Proper(Part(m, f, t), end)
  {
  }

  /** Two edges that leave neighbouring corners of one face and lie in another, in either order,
      fix where the other's corners are. */
  lemma SharedCorner(m: map<Edge, nat>, faces: seq<Face>, n: nat, i: nat, j: Corner, k: nat, l: Corner)
    requires Level(m, faces, n) && i < |faces| && k < |faces|
    ensures Mid(m, faces[i], j) == Mid(m, faces[k], l) && Mid(m, faces[i], Prev(j)) == Mid(m, faces[k], Prev(l)) ==>
              Out(faces[i], j) == Out(faces[k], l) && Out(faces[i], Prev(j)) == Out(faces[k], Prev(l))
    ensures Mid(m, faces[i], j) == Mid(m, faces[k], l) && Mid(m, faces[i], Prev(j)) == Mid(m, faces[k], Next(l)) ==>
              Mirror(faces[i], faces[k], j, Next(l))
  {
    assert Proper(faces[i], n) && Proper(faces[k], n);
    if Mid(m, faces[i], j) == Mid(m, faces[k], l) {
      MidTellsEdges(m, faces, n, i, j, k, l);
      if Mid(m, faces[i], Prev(j)) == Mid(m, faces[k], Prev(l)) {
        MidTellsEdges(m, faces, n, i, Prev(j), k, Prev(l));
      }
      if Mid(m, faces[i], Prev(j)) == Mid(m, faces[k], Next(l)) {
        MidTellsEdges(m, faces, n, i, Prev(j), k, Next(l));
      }
    }
  }

  /** The edges across a face, on either side: an inner edge is an edge of one part only. */
  lemma InnerEdgesOnce(m: map<Edge, nat>, faces: seq<Face>, n: nat, i: nat, j: Corner, k: nat, l: Corner)
    requires Level(m, faces, n) && EdgesOnce(faces) && NoPillow(faces) && i < |faces| && k < |faces|
    ensures Mid(m, faces[i], j) == Mid(m, faces[k], l) && Mid(m, faces[i], Prev(j)) == Mid(m, faces[k], Prev(l)) ==>
        i == k && j == l
    ensures !(Mid(m, faces[i], j) == Mid(m, faces[k], l) && Mid(m, faces[i], Prev(j)) == Mid(m, faces[k], Next(l)))
  {
    SharedCorner(m, faces, n, i, j, k, l);
  }

  /** The halves of an edge: each belongs to one part only. */
  lemma OuterEdgesOnce(m: map<Edge, nat>, faces: seq<Face>, n: nat, i: nat, j: Corner, k: nat, l: Corner)
    requires Level(m, faces, n) && EdgesOnce(faces) && i < |faces| && k < |faces|
        && Mid(m, faces[i], j) == Mid(m, faces[k], l)
    ensures At(faces[i], j) == At(faces[k], l) ==> i == k && j == l
    ensures At(faces[i], Next(j)) == At(faces[k], Next(l)) ==> i == k && j == l
  {
  }

  /** The heart of it: two parts that share a directed edge are the same part of the same face. */
  lemma PartEdgesOnce(m: map<Edge, nat>, faces: seq<Face>, n: nat, i: nat, t: nat, e: Corner, k: nat, s: nat, d: Corner)
    requires Level(m, faces, n) && EdgesOnce(faces) && NoPillow(faces)
    requires i < |faces| && k < |faces| && t < 4 && s < 4
    requires Out(Part(m, faces[i], t), e) == Out(Part(m, faces[k], s), d)
    ensures i == k && t == s && e == d
  {
    PartKind(m, faces, n, i, t, e);
    PartKind(m, faces, n, k, s, d);
    if t == 3 && s == 3 {
      InnerEdgesOnce(m, faces, n, i, Next(e), k, Next(d));
    } else if t == 3 {
      InnerEdgesOnce(m, faces, n, k, s, i, e);
    } else if s == 3 {
      InnerEdgesOnce(m, faces, n, i, t, k, d);
    } else if e == 1 {
      InnerEdgesOnce(m, faces, n, i, t, k, s);
    } else if e == 0 {
      OuterEdgesOnce(m, faces, n, i, t, k, s);
    } else {
      OuterEdgesOnce(m, faces, n, i, Prev(t), k, Prev(s));
    }
  }

  /** Which ends of a part's edge are points of the level before. */
  lemma PartKind(m: map<Edge, nat>, faces: seq<Face>, n: nat, i: nat, t: nat, e: Corner)
    requires Level(m, faces, n) && i < |faces| && t < 4
    ensures var (u, v) := Out(Part(m, faces[i], t), e);
            && (u < n <==> t != 3 && e == 0) && (v < n <==> t != 3 && e == 2)
            && (t == 3 ==> u == Mid(m, faces[i], e) && v == Mid(m, faces[i], Next(e)))
            && (t != 3 && e == 0 ==> u == At(faces[i], t) && v == Mid(m, faces[i], t))
            && (t != 3 && e == 1 ==> u == Mid(m, faces[i], t) && v == Mid(m, faces[i], Prev(t)))
            && (t != 3 && e == 2 ==> u == Mid(m, faces[i], Prev(t)) && v == At(faces[i], t))
  {
    PartEdges(m, faces[i], t, e);
    AllMidBounds(m, faces, n, i);
    assert Proper(faces[i], n);
  }

  lemma AllMidBounds(m: map<Edge, nat>, faces: seq<Face>, n: nat, i: nat)
    requires Level(m, faces, n) && i < |faces|
    ensures forall j: Corner :: n <= Mid(m, faces[i], j) < n + |m|
  {
  }

  /** Both directions of an edge have the same midpoint. */
  lemma MidOfReverse(m: map<Edge, nat>, f: Face, j: Corner, g: Face, l: Corner)
    requires Out(g, l) == Reverse(Out(f, j)) && f.a != f.b && f.b != f.c && f.c != f.a
    ensures Mid(m, g, l) == Mid(m, f, j)
  {
  }

  lemma PartHas(m: map<Edge, nat>, faces: seq<Face>, i: nat, t: nat, e: Corner)
    requires i < |faces| && t < 4
    ensures Has(Refined(m, faces), Out(Part(m, faces[i], t), e))
  {
    RefinedAt(m, faces, i, t);
    assert Out(Refined(m, faces)[4 * i + t], e) == Out(Part(m, faces[i], t), e);
  }

  /** The other side of an edge has the same midpoint. */
  lemma OtherSide(m: map<Edge, nat>, faces: seq<Face>, n: nat, i: nat, j: Corner) returns (k: nat, l: Corner)
    requires Level(m, faces, n) && ReversesOccur(faces) && i < |faces|
    ensures k < |faces| && Out(faces[k], l) == Reverse(Out(faces[i], j)) && Mid(m, faces[k], l) == Mid(m, faces[i], j)
  {
    assert Proper(faces[i], n) && Has(faces, Reverse(Out(faces[i], j)));
    k, l :| 0 <= k < |faces| && Out(faces[k], l) == Reverse(Out(faces[i], j));
    MidOfReverse(m, faces[i], j, faces[k], l);
  }

  /** The halves of an edge are met by the halves of its reverse. */
  lemma OuterReverses(m: map<Edge, nat>, faces: seq<Face>, n: nat, i: nat, j: Corner)
    requires Level(m, faces, n) && ReversesOccur(faces) && i < |faces|
    ensures Has(Refined(m, faces), (Mid(m, faces[i], j), At(faces[i], j)))
    ensures Has(Refined(m, faces), (At(faces[i], Next(j)), Mid(m, faces[i], j)))
  {
    var k, l := OtherSide(m, faces, n, i, j);
    PartEdges(m, faces[k], Next(l), 2);
    PartHas(m, faces, k, Next(l), 2);
    PartEdges(m, faces[k], l, 0);
    PartHas(m, faces, k, l, 0);
  }

  /** An edge across a face has its middle part on one side and a corner part on the other. */
  lemma InnerReverses(m: map<Edge, nat>, faces: seq<Face>, i: nat, j: Corner)
    requires i < |faces|
    ensures Has(Refined(m, faces), (Mid(m, faces[i], Next(j)), Mid(m, faces[i], j)))
    ensures Has(Refined(m, faces), (Mid(m, faces[i], j), Mid(m, faces[i], Next(j))))
  {
    PartEdges(m, faces[i], Next(j), 1);
    PartHas(m, faces, i, Next(j), 1);
    PartEdges(m, faces[i], 3, j);
    PartHas(m, faces, i, 3, j);
  }

  lemma PartReverses(m: map<Edge, nat>, faces: seq<Face>, n: nat, i: nat, t: nat, e: Corner)
    requires Level(m, faces, n) && ReversesOccur(faces) && i < |faces| && t < 4
    ensures Has(Refined(m, faces), Reverse(Out(Part(m, faces[i], t), e)))
  {
    PartEdges(m, faces[i], t, e);
    if t == 3 {
      InnerReverses(m, faces, i, e);
    } else if e == 0 {
      OuterReverses(m, faces, n, i, t);
    } else if e == 1 {
      InnerReverses(m, faces, i, Prev(t));
    } else {
      OuterReverses(m, faces, n, i, Prev(t));
    }
  }

  /** No part is the mirror of another: across the edge in question, the one is a middle part and
      the other a corner part. */
  lemma PartsNotMirrored(m: map<Edge, nat>, faces: seq<Face>, n: nat, i: nat, t: nat, j: Corner, k: nat, s: nat,
                         l: Corner)
    requires Level(m, faces, n) && EdgesOnce(faces) && NoPillow(faces)
    requires i < |faces| && k < |faces| && t < 4 && s < 4
    ensures !Mirror(Part(m, faces[i], t), Part(m, faces[k], s), j, l)
  {
    var f, g := Part(m, faces[i], t), Part(m, faces[k], s);
    if Mirror(f, g, j, l) {
      var e: Corner := if t == 3 then j else 1;
      var d: Corner := MirroredEdge(f, g, j, l, e);
      PartKind(m, faces, n, i, t, e);
      PartKind(m, faces, n, k, s, d);
      if t == 3 {
        PartKind(m, faces, n, i, Next(j), 1);
        PartEdgesOnce(m, faces, n, k, s, d, i, Next(j), 1);
        WholeIsNew(m, faces, n, i, k, s, j, l);
      } else {
        PartKind(m, faces, n, i, 3, Prev(t));
        PartEdgesOnce(m, faces, n, k, s, d, i, 3, Prev(t));
        WholeIsNew(m, faces, n, k, i, t, l, j);
      }
    }
  }

  /** A middle part has only new points, so that it mirrors no corner part. */
  lemma WholeIsNew(m: map<Edge, nat>, faces: seq<Face>, n: nat, i: nat, k: nat, s: nat, j: Corner, l: Corner)
    requires Level(m, faces, n) && i < |faces| && k < |faces| && s < 3
    ensures !Mirror(Part(m, faces[i], 3), Part(m, faces[k], s), j, l)
    ensures !Mirror(Part(m, faces[k], s), Part(m, faces[i], 3), l, j)
  {
    AllMidBounds(m, faces, n, i);
    assert Proper(faces[k], n);
    assert At(Part(m, faces[k], s), 0) < n;
  }

  /** The edge of `g` that is edge `e` of its mirror `f` reversed. */
  function MirroredEdge(f: Face, g: Face, j: Corner, l: Corner, e: Corner): (d: Corner)
    requires Mirror(f, g, j, l)
    ensures Out(g, d) == Reverse(Out(f, e))
  {
    if e == j then Prev(l) else if e == Next(j) then Next(l) else l
  }

  lemma OldPointsUsed(m: map<Edge, nat>, faces: seq<Face>, v: nat)
    requires Uses(faces, v)
    ensures Uses(Refined(m, faces), v)
  {
    var i, j: Corner :| 0 <= i < |faces| && At(faces[i], j) == v;
    RefinedAt(m, faces, i, j);
    assert At(Refined(m, faces)[4 * i + j], 0) == v;
  }

  lemma MidpointsUsed(m: map<Edge, nat>, faces: seq<Face>, v: nat)
    requires m.Keys == Keys(faces) && IsMidpoint(m, v)
    ensures Uses(Refined(m, faces), v)
  {
    var e :| e in m && m[e] == v;
    assert e in Keys(faces);
    var i, j: Corner :| 0 <= i < |faces| && Key(Out(faces[i], j)) == e;
    RefinedAt(m, faces, i, j);
    assert At(Refined(m, faces)[4 * i + j], 1) == v;
  }

  lemma RefinedEdgesOnce(m: map<Edge, nat>, faces: seq<Face>, n: nat)
    requires Level(m, faces, n) && EdgesOnce(faces) && NoPillow(faces)
    ensures EdgesOnce(Refined(m, faces))
  {
    var r := Refined(m, faces);
    forall p, q, e: Corner, d: Corner | 0 <= p < |r| && 0 <= q < |r| && Out(r[p], e) == Out(r[q], d)
        ensures p == q && e == d {
      PartEdgesOnce(m, faces, n, p / 4, p % 4, e, q / 4, q % 4, d);
    }
  }

  lemma RefinedNoPillow(m: map<Edge, nat>, faces: seq<Face>, n: nat)
    requires Level(m, faces, n) && EdgesOnce(faces) && NoPillow(faces)
    ensures NoPillow(Refined(m, faces))
  {
    var r := Refined(m, faces);
    forall p, q, j: Corner, l: Corner | 0 <= p < |r| && 0 <= q < |r| ensures !Mirror(r[p], r[q], j, l) {
      PartsNotMirrored(m, faces, n, p / 4, p % 4, j, q / 4, q % 4, l);
    }
  }

  lemma RefinedReverses(m: map<Edge, nat>, faces: seq<Face>, n: nat)
    requires Level(m, faces, n) && ReversesOccur(faces)
    ensures ReversesOccur(Refined(m, faces))
  {
    var r := Refined(m, faces);
    forall p, e: Corner | 0 <= p < |r| ensures Has(r, Reverse(Out(r[p], e))) {
      PartReverses(m, faces, n, p / 4, p % 4, e);
    }
  }

  lemma RefinedProper(m: map<Edge, nat>, faces: seq<Face>, n: nat)
    requires Level(m, faces, n)
    ensures AllProper(Refined(m, faces), n + |m|)
  {
    var r := Refined(m, faces);
    forall p | 0 <= p < |r| ensures Proper(r[p], n + |m|) {
      PartProper(m, faces, n, p / 4, p % 4);
    }
  }

  lemma RefinedIsClosed(m: map<Edge, nat>, faces: seq<Face>, n: nat)
    requires Table(m, n) && m.Keys == Keys(faces) && Closed(faces, n)
    ensures Closed(Refined(m, faces), n + |m|)
  {
    RefinedProper(m, faces, n);
    RefinedEdgesOnce(m, faces, n);
    RefinedNoPillow(m, faces, n);
    RefinedReverses(m, faces, n);
    forall v | 0 <= v < n + |m| ensures Uses(Refined(m, faces), v) {
      if v < n {
        OldPointsUsed(m, faces, v);
      } else {
        MidpointsUsed(m, faces, v);
      }
    }
  }

  /** Without the condition on faces back to back it is false: two triangles back to back make a
      surface whose edges all occur once in each direction, but not at the next level. */
  lemma PillowBreaks(m: map<Edge, nat>, f: Face, n: nat)
    requires Level(m, Pillow(f), n)
    ensures !EdgesOnce(Refined(m, Pillow(f)))
  {
    var faces := Pillow(f);
    assert faces[0] == f && faces[1] == Face(f.a, f.c, f.b);
    assert Proper(f, n) && |faces| == 2;
    MidOfReverse(m, f, 2, faces[1], 0);
    MidOfReverse(m, f, 0, faces[1], 2);
    RefinedAt(m, faces, 0, 0);
    RefinedAt(m, faces, 1, 3);
    PartEdges(m, f, 0, 1);
    PartEdges(m, faces[1], 3, 2);
    assert Out(Refined(m, faces)[0], 1) == Out(Refined(m, faces)[7], 2);
  }

  lemma PillowIsClosed(f: Face, n: nat)
    requires Proper(f, n)
    ensures EdgesOnce(Pillow(f)) && ReversesOccur(Pillow(f)) && AllProper(Pillow(f), n)
  {
    var faces := Pillow(f);
    forall i, j: Corner | 0 <= i < |faces| ensures Has(faces, Reverse(Out(faces[i], j))) {
      assert Out(faces[1 - i], 2 - j) == Reverse(Out(faces[i], j));
    }
  }

  function Pillow(f: Face): seq<Face> {
    [f, Face(f.a, f.c, f.b)]
  }

  /* ---------- How many edges ---------- */

  ghost function EdgeSet(faces: seq<Face>): set<Edge> {
    set i, j: Corner | 0 <= i < |faces| :: Out(faces[i], j)
  }

  lemma {:induction false} EdgeCount(faces: seq<Face>)
    requires EdgesOnce(faces)
    ensures |EdgeSet(faces)| == 3 * |faces|
  {
    if faces != [] {
      var last := |faces| - 1;
      var f, rest := faces[last], faces[..last];
      EdgeCount(rest);
      var mine := {Out(f, 0), Out(f, 1), Out(f, 2)};
      assert Out(faces[last], 0) != Out(faces[last], 1) && Out(faces[last], 1) != Out(faces[last], 2)
          && Out(faces[last], 2) != Out(faces[last], 0);
      assert |mine| == 3;
      assert EdgeSet(faces) == EdgeSet(rest) + mine;
      assert EdgeSet(rest) !! mine;
    }
  }

  lemma {:induction false} ReversedCount(s: set<Edge>)
    ensures |ReverseAll(s)| == |s|
  {
    if s != {} {
      var d :| d in s;
      ReversedCount(s - {d});
      assert ReverseAll(s) == ReverseAll(s - {d}) + {Reverse(d)};
    }
  }

  ghost function ReverseAll(s: set<Edge>): set<Edge> {
    set e | e in s :: Reverse(e)
  }

  /** On a closed surface an edge has two sides: three edges for every two faces. */
  lemma KeyCount(faces: seq<Face>, n: nat)
    requires Closed(faces, n)
    ensures 2 * |Keys(faces)| == 3 * |faces|
  {
    EdgeCount(faces);
    ReversedCount(Keys(faces));
    BothSides(faces, n);
    assert EdgeSet(faces) == Keys(faces) + ReverseAll(Keys(faces));
  }

  lemma BothSides(faces: seq<Face>, n: nat)
    requires AllProper(faces, n) && ReversesOccur(faces)
    ensures EdgeSet(faces) == Keys(faces) + ReverseAll(Keys(faces)) && Keys(faces) !! ReverseAll(Keys(faces))
  {
  }

  /* ---------- The program ---------- */

  predicate InRange(faces: seq<Face>, n: nat) {
    forall i :: 0 <= i < |faces| ==> faces[i].a < n && faces[i].b < n && faces[i].c < n
  }

  ghost predicate AllHalfway(m: map<Edge, nat>, n: nat, points: seq<Point>) {
    forall e :: e in m ==>
        (e.0 < n && e.1 < n && n <= m[e] < |points| && points[m[e]] == Half(points[e.0], points[e.1]))
  }

  /** A table over the first `n` points, the rest of which are its midpoints, each halfway along
      its edge. */
  ghost predicate Halfway(m: map<Edge, nat>, n: nat, points: seq<Point>) {
    |points| == n + |m| && Table(m, n) && AllHalfway(m, n, points)
  }

  class Sphere {
    var points: seq<Point>
    var midpoints: map<Edge, nat>

    constructor (phi: real)
      ensures points == Corners(phi) && midpoints == map[]
    {
      points := [
        Point(-1.0, phi, 0.0), Point(1.0, phi, 0.0), Point(-1.0, -phi, 0.0), Point(1.0, -phi, 0.0),
        Point(0.0, -1.0, phi), Point(0.0, 1.0, phi), Point(0.0, -1.0, -phi), Point(0.0, 1.0, -phi),
        Point(phi, 0.0, -1.0), Point(phi, 0.0, 1.0), Point(-phi, 0.0, -1.0), Point(-phi, 0.0, 1.0)];
      midpoints := map[];
    }

    /** The midpoint of an edge, made the first time it is asked for in a level. */
    method Midpoint(a: nat, b: nat) returns (index: nat)
      requires a < |points| && b < |points|
      modifies this
      ensures Asked(old(points), old(midpoints), a, b) == (points, midpoints)
      ensures Key((a, b)) in midpoints && index == midpoints[Key((a, b))]
    {
      var key := if a < b then (a, b) else (b, a);
      if key in midpoints {
        return midpoints[key];
      }
      points := points + [Half(points[a], points[b])];
      midpoints := midpoints[key := |points| - 1];
      index := |points| - 1;
    }

    /** One level: one midpoint for every edge, every face split in four. */
    method Refine(faces: seq<Face>) returns (refined: seq<Face>)
      requires InRange(faces, |points|)
      modifies this
      ensures Halfway(midpoints, old(|points|), points)
      ensures midpoints.Keys == Keys(faces)
      ensures points[..old(|points|)] == old(points)
      ensures refined == Refined(midpoints, faces)
    {
      ghost var n := |points|;
      SoFarStarts(points, faces);
      midpoints := map[];
      refined := [];
      for i := 0 to |faces|
        invariant n <= |points| && points[..n] == old(points)
        invariant SoFar(points, midpoints, refined, faces, i, n)
      {
        SoFarGrows(points, midpoints, refined, faces, i, n);
        var parts := Split(faces[i]);
        refined := refined + parts;
      }
      SoFarEnds(points, midpoints, refined, faces, n);
    }

    /** One face, split in four. */
    method Split(f: Face) returns (parts: seq<Face>)
      requires f.a < |points| && f.b < |points| && f.c < |points|
      modifies this
      ensures AskedAll(old(points), old(midpoints), f) == (points, midpoints)
      ensures parts == Parts(midpoints, f)
    {
      AskedStays(points, midpoints, f);
      var ab := Midpoint(f.a, f.b);
      var bc := Midpoint(f.b, f.c);
      var ca := Midpoint(f.c, f.a);
      parts := [Face(f.a, ab, ca), Face(f.b, bc, ab), Face(f.c, ca, bc), Face(ab, bc, ca)];
    }
  }

  /** A level with `i` faces done. */
  ghost predicate SoFar(points: seq<Point>, m: map<Edge, nat>, refined: seq<Face>, faces: seq<Face>, i: nat, n: nat)
    requires i <= |faces|
  {
    Halfway(m, n, points) && m.Keys == Keys(faces[..i]) && refined == Refined(m, faces[..i])
  }

  lemma SoFarStarts(points: seq<Point>, faces: seq<Face>)
    ensures SoFar(points, map[], [], faces, 0, |points|)
  {
  }

  lemma SoFarEnds(points: seq<Point>, m: map<Edge, nat>, refined: seq<Face>, faces: seq<Face>, n: nat)
    requires SoFar(points, m, refined, faces, |faces|, n)
    ensures Halfway(m, n, points) && m.Keys == Keys(faces) && refined == Refined(m, faces)
  {
  }

  function Parts(m: map<Edge, nat>, f: Face): seq<Face> {
    [Part(m, f, 0), Part(m, f, 1), Part(m, f, 2), Part(m, f, 3)]
  }

  lemma SoFarGrows(points: seq<Point>, m: map<Edge, nat>, refined: seq<Face>, faces: seq<Face>, i: nat, n: nat)
    requires i < |faces| && InRange(faces, n) && SoFar(points, m, refined, faces, i, n)
    ensures faces[i].a < |points| && faces[i].b < |points| && faces[i].c < |points|
    ensures var (after, table) := AskedAll(points, m, faces[i]);
            && n <= |after| && after[..n] == points[..n]
            && SoFar(after, table, refined + Parts(table, faces[i]), faces, i + 1, n)
  {
    var (after, table) := AskedAll(points, m, faces[i]);
    AskedAllHalfway(points, m, n, faces[i]);
    AskedAllAdds(points, m, n, faces[i]);
    KeysGrow(faces, i);
    RefinedGrows(m, table, faces, i);
  }

  /** The points and the table once a midpoint was asked for. */
  function Asked(points: seq<Point>, m: map<Edge, nat>, a: nat, b: nat): (seq<Point>, map<Edge, nat>)
    requires a < |points| && b < |points|
  {
    if Key((a, b)) in m then (points, m)
    else (points + [Half(points[a], points[b])], m[Key((a, b)) := |points|])
  }

  lemma AskedHalfway(points: seq<Point>, m: map<Edge, nat>, n: nat, a: nat, b: nat)
    requires a < n && b < n && Halfway(m, n, points)
    ensures Halfway(Asked(points, m, a, b).1, n, Asked(points, m, a, b).0)
  {
    AskedTable(points, m, n, a, b);
    if Key((a, b)) !in m {
      PointsGrow(m, n, points, a, b);
    }
  }

  lemma AskedTable(points: seq<Point>, m: map<Edge, nat>, n: nat, a: nat, b: nat)
    requires a < n && b < n && |points| == n + |m| && Table(m, n)
    ensures var (after, table) := Asked(points, m, a, b); |after| == n + |table| && Table(table, n)
  {
    if Key((a, b)) !in m {
      TableGrows(m, n, Key((a, b)));
      KeyAdded(m, Key((a, b)), |points|);
    }
  }

  lemma KeyAdded(m: map<Edge, nat>, key: Edge, v: nat)
    requires key !in m
    ensures |m[key := v]| == |m| + 1
  {
  }

  /** ... once the three of a face were. */
  function AskedAll(points: seq<Point>, m: map<Edge, nat>, f: Face): (seq<Point>, map<Edge, nat>)
    requires f.a < |points| && f.b < |points| && f.c < |points|
  {
    var first := Asked(points, m, f.a, f.b);
    var second := Asked(first.0, first.1, f.b, f.c);
    Asked(second.0, second.1, f.c, f.a)
  }

  lemma AskedStays(points: seq<Point>, m: map<Edge, nat>, f: Face)
    requires f.a < |points| && f.b < |points| && f.c < |points|
    ensures var first := Asked(points, m, f.a, f.b);
            var second := Asked(first.0, first.1, f.b, f.c);
            var third := AskedAll(points, m, f);
            && Key(Out(f, 0)) in first.1 && Key(Out(f, 1)) in second.1 && Key(Out(f, 2)) in third.1
            && Mid(third.1, f, 0) == first.1[Key(Out(f, 0))]
            && Mid(third.1, f, 1) == second.1[Key(Out(f, 1))]
  {
  }

  lemma AskedAllHalfway(points: seq<Point>, m: map<Edge, nat>, n: nat, f: Face)
    requires f.a < n && f.b < n && f.c < n && Halfway(m, n, points)
    ensures Halfway(AskedAll(points, m, f).1, n, AskedAll(points, m, f).0)
  {
    var first := Asked(points, m, f.a, f.b);
    var second := Asked(first.0, first.1, f.b, f.c);
    AskedHalfway(points, m, n, f.a, f.b);
    AskedHalfway(first.0, first.1, n, f.b, f.c);
    AskedHalfway(second.0, second.1, n, f.c, f.a);
  }

  /** What asking for the midpoints of a face adds, and what it leaves alone. */
  lemma AskedAllAdds(points: seq<Point>, m: map<Edge, nat>, n: nat, f: Face)
    requires f.a < n && f.b < n && f.c < n && n <= |points|
    ensures var (after, table) := AskedAll(points, m, f);
            && n <= |after| && after[..n] == points[..n]
            && Extends(m, table) && table.Keys == m.Keys + {Key(Out(f, 0)), Key(Out(f, 1)), Key(Out(f, 2))}
  {
  }

  lemma PointsGrow(m: map<Edge, nat>, n: nat, points: seq<Point>, a: nat, b: nat)
    requires a < n && b < n && |points| == n + |m| && AllHalfway(m, n, points) && Key((a, b)) !in m
    ensures AllHalfway(m[Key((a, b)) := |points|], n, points + [Half(points[a], points[b])])
  {
  }

  lemma TableGrows(m: map<Edge, nat>, n: nat, key: Edge)
    requires Table(m, n) && key !in m
    ensures Table(m[key := n + |m|], n)
  {
    var after := m[key := n + |m|];
    KeyAdded(m, key, n + |m|);
    forall v | n <= v < n + |after| ensures IsMidpoint(after, v) {
      MidpointStays(m, n, key, v);
    }
    OneToOneGrows(m, key, n + |m|);
  }

  lemma OneToOneGrows(m: map<Edge, nat>, key: Edge, v: nat)
    requires OneToOne(m) && key !in m && forall e :: e in m ==> m[e] < v
    ensures OneToOne(m[key := v])
  {
  }

  lemma MidpointStays(m: map<Edge, nat>, n: nat, key: Edge, v: nat)
    requires key !in m && (v == n + |m| || IsMidpoint(m, v))
    ensures IsMidpoint(m[key := n + |m|], v)
  {
    var after := m[key := n + |m|];
    if v == n + |m| {
      assert key in after && after[key] == v;
    } else {
      var e :| e in m && m[e] == v;
      assert e in after && after[e] == v;
    }
  }

  ghost predicate Extends(before: map<Edge, nat>, after: map<Edge, nat>) {
    forall e :: e in before ==> e in after && after[e] == before[e]
  }

  lemma KeysGrow(faces: seq<Face>, i: nat)
    requires i < |faces|
    ensures Keys(faces[..i + 1]) == Keys(faces[..i])
        + {Key(Out(faces[i], 0)), Key(Out(faces[i], 1)), Key(Out(faces[i], 2))}
  {
  }

  lemma RefinedGrows(before: map<Edge, nat>, after: map<Edge, nat>, faces: seq<Face>, i: nat)
    requires i < |faces| && Extends(before, after) && before.Keys == Keys(faces[..i])
    ensures Refined(after, faces[..i + 1]) == Refined(before, faces[..i]) + Parts(after, faces[i])
  {
  }

}
