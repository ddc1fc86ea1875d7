/**
 * The box mesh builder of block.py: a box of width, height and depth, one
 * colour per face role (floor, wall, top) and a set of "open" faces gives a
 * flat, interleaved vertex list (x, y, z, r, g, b per vertex, six vertices
 * per face) holding only the faces that are not open.
 */
module Blocks {
  import opened Wrappers
  import opened Vectors

  datatype Color = Color(r: real, g: real, b: real)

  /** One entry of the face table: 18 coordinates (six corners) and the face's colour. */
  datatype Face = Face(coords: seq<real>, color: Color)

  /** One vertex of the output, read back from six consecutive floats. */
  datatype Vertex = Vertex(position: Vec3, color: Color)

  /** What `Block.__init__` keeps: the translation, the uploaded vertex data and the count. */
  datatype Block = Block(position: Vec3, vertices: seq<real>, count: nat)

  /** A colour missing from the colour dictionary raises Python's KeyError. */
  datatype BlockError = KeyError(key: string)

  const FaceCount := 6
  const VerticesPerFace := 6
  const FloatsPerVertex := 6

  /** Vertex attribute layout of the uploaded buffer, in bytes (float32 data). */
  const FloatBytes := 4
  const Stride := FloatsPerVertex * FloatBytes
  const PositionOffset := 0
  const ColorOffset := 12

  lemma AttributeLayout()
    ensures Stride == 24
    ensures PositionOffset + 3 * FloatBytes == ColorOffset
    ensures ColorOffset + 3 * FloatBytes == Stride
  {
  }

  /**
   * The fixed face table, from half-extents x, y, z: faces 0 and 1 at
   * z = -z and z = +z, 2 and 3 at x = -x and x = +x, 4 (floor) at y = -y and
   * 5 (top) at y = +y.
   */
  function FaceTable(x: real, y: real, z: real, colorFloor: Color, colorWall: Color, colorTop: Color): (faces: seq<Face>)
    ensures |faces| == FaceCount
    ensures forall f :: 0 <= f < |faces| ==> |faces[f].coords| == 3 * VerticesPerFace
  {
    [ Face([-x,-y,-z,  x,-y,-z,  x, y,-z,  x, y,-z, -x, y,-z, -x,-y,-z], colorWall),
      Face([-x,-y, z,  x,-y, z,  x, y, z,  x, y, z, -x, y, z, -x,-y, z], colorWall),
      Face([-x, y, z, -x, y,-z, -x,-y,-z, -x,-y,-z, -x,-y, z, -x, y, z], colorWall),
      Face([ x, y, z,  x, y,-z,  x,-y,-z,  x,-y,-z,  x,-y, z,  x, y, z], colorWall),
      Face([-x,-y,-z,  x,-y,-z,  x,-y, z,  x,-y, z, -x,-y, z, -x,-y,-z], colorFloor),
      Face([-x, y,-z,  x, y,-z,  x, y, z,  x, y, z, -x, y, z, -x, y,-z], colorTop) ]
  }

  /** Corner j of a face, as the table lists it. */
  function TableVertex(face: Face, j: nat): Vertex
    requires 3 * j + 3 <= |face.coords|
  {
    Vertex(Vec3(face.coords[3 * j], face.coords[3 * j + 1], face.coords[3 * j + 2]), face.color)
  }

  /** Vertex k of a flat interleaved list. */
  function VertexAt(v: seq<real>, k: nat): Vertex
    requires FloatsPerVertex * k + FloatsPerVertex <= |v|
  {
    Vertex(Vec3(v[FloatsPerVertex * k], v[FloatsPerVertex * k + 1], v[FloatsPerVertex * k + 2]), Color(v[FloatsPerVertex * k + 3], v[FloatsPerVertex * k + 4], v[FloatsPerVertex * k + 5]))
  }

  /** The interleaved floats of the first n corners of a face: position, then the face's colour. */
  function Interleave(coords: seq<real>, col: Color, n: nat): (v: seq<real>)
    requires 3 * n <= |coords|
    ensures |v| == FloatsPerVertex * n
  {
    if n == 0 then []
    else
      var i := 3 * (n - 1);
      Interleave(coords, col, n - 1) + [coords[i], coords[i + 1], coords[i + 2], col.r, col.g, col.b]
  }

  lemma {:induction false} InterleaveAt(coords: seq<real>, col: Color, n: nat, j: nat)
    requires 3 * n <= |coords| && j < n
    ensures VertexAt(Interleave(coords, col, n), j) == TableVertex(Face(coords, col), j)
  {
    if j < n - 1 {
      InterleaveAt(coords, col, n - 1, j);
    }
  }

  /** All floats a closed face contributes. */
  function FaceVertices(face: Face): (v: seq<real>)
    requires |face.coords| == 3 * VerticesPerFace
    ensures |v| == FloatsPerVertex * VerticesPerFace
  {
    Interleave(face.coords, face.color, VerticesPerFace)
  }

  predicate ValidFaces(faces: seq<Face>, vis: seq<nat>)
  {
    forall i :: 0 <= i < |vis| ==> vis[i] < |faces| && |faces[vis[i]].coords| == 3 * VerticesPerFace
  }

  /** The floats of the faces listed in vis, in that order. */
  function MeshOf(faces: seq<Face>, vis: seq<nat>): (v: seq<real>)
    requires ValidFaces(faces, vis)
    ensures |v| == FloatsPerVertex * VerticesPerFace * |vis|
  {
    if vis == [] then []
    else MeshOf(faces, vis[..|vis| - 1]) + FaceVertices(faces[vis[|vis| - 1]])
  }

  lemma {:induction false} MeshOfAt(faces: seq<Face>, vis: seq<nat>, k: nat)
    requires ValidFaces(faces, vis)
    requires k < VerticesPerFace * |vis|
    ensures k / VerticesPerFace < |vis| && vis[k / VerticesPerFace] < |faces|
    ensures VertexAt(MeshOf(faces, vis), k) == TableVertex(faces[vis[k / VerticesPerFace]], k % VerticesPerFace)
  {
    var m := |vis| - 1;
    var prefix := MeshOf(faces, vis[..m]);
    var last := FaceVertices(faces[vis[m]]);
    assert MeshOf(faces, vis) == prefix + last;
    if k < VerticesPerFace * m {
      MeshOfAt(faces, vis[..m], k);
      assert VertexAt(prefix + last, k) == VertexAt(prefix, k);
    } else {
      var j := k - VerticesPerFace * m;
      assert k / VerticesPerFace == m && k % VerticesPerFace == j;
      InterleaveAt(faces[vis[m]].coords, faces[vis[m]].color, VerticesPerFace, j);
      assert VertexAt(prefix + last, k) == VertexAt(last, j);
    }
  }

  /** The face indices below n that are not open, ascending: the faces the loop emits. */
  function VisibleUpTo(open: set<int>, n: nat): (vis: seq<nat>)
    ensures forall i :: 0 <= i < |vis| ==> vis[i] < n && vis[i] !in open
  {
    if n == 0 then []
    else VisibleUpTo(open, n - 1) + (if n - 1 in open then [] else [n - 1])
  }

  /** The emitted faces are exactly the closed ones, in ascending order. */
  lemma {:induction false} VisibleExactlyClosed(open: set<int>, n: nat)
    ensures forall f :: 0 <= f < n && f !in open ==> f in VisibleUpTo(open, n)
    ensures forall i, j :: 0 <= i < j < |VisibleUpTo(open, n)| ==> VisibleUpTo(open, n)[i] < VisibleUpTo(open, n)[j]
  {
    if n > 0 {
      VisibleExactlyClosed(open, n - 1);
    }
  }

  /** The faces that are drawn: indices 0..5 not in the open set. */
  function ClosedFaces(open: set<int>, n: nat): set<int>
  {
    set f | 0 <= f < n && f !in open
  }

  lemma ClosedFacesStep(open: set<int>, n: nat)
    ensures n in open ==> ClosedFaces(open, n + 1) == ClosedFaces(open, n)
    ensures n !in open ==> ClosedFaces(open, n + 1) == ClosedFaces(open, n) + {n}
    ensures n !in ClosedFaces(open, n)
  {
  }

  lemma {:induction false} VisibleCount(open: set<int>, n: nat)
    ensures |VisibleUpTo(open, n)| == |ClosedFaces(open, n)|
  {
    if n > 0 {
      VisibleCount(open, n - 1);
      ClosedFacesStep(open, n - 1);
      var before := VisibleUpTo(open, n - 1);
      assert VisibleUpTo(open, n) == before + (if n - 1 in open then [] else [n - 1]);
      if n - 1 in open {
        assert |VisibleUpTo(open, n)| == |before|;
      } else {
        assert |VisibleUpTo(open, n)| == |before| + 1;
        assert |ClosedFaces(open, n)| == |ClosedFaces(open, n - 1)| + 1;
      }
    }
  }

  /** The face indices 0 to 5. */
  function AllFaces(): (r: set<int>)
    ensures forall f :: f in r <==> 0 <= f < FaceCount
    ensures |r| == FaceCount
  {
    var r := {0, 1, 2, 3, 4, 5};
    assert forall f :: f in r <==> 0 <= f < FaceCount;
    r
  }

  /** Whatever the open set, the closed faces are the indices 0 to 5 not in it. */
  lemma ClosedFacesCount(open: set<int>)
    ensures |ClosedFaces(open, FaceCount)| == FaceCount - |open * AllFaces()|
  {
    var all := AllFaces();
    assert ClosedFaces(open, FaceCount) == all - open * all;
    assert open * all <= all;
  }

  /** For an open set within 0 to 5, the count is (6 - |open|) faces. */
  lemma ClosedFacesOfSubset(open: set<int>)
    requires open <= AllFaces()
    ensures |ClosedFaces(open, FaceCount)| == FaceCount - |open|
  {
    ClosedFacesCount(open);
    assert open * AllFaces() == open;
  }

  /** And only then: an index outside 0 to 5 makes (6 - |open|) too small. */
  lemma ClosedFacesFormulaNeedsSubset(open: set<int>)
    requires |ClosedFaces(open, FaceCount)| == FaceCount - |open|
    ensures open <= AllFaces()
  {
    ClosedFacesCount(open);
    var inside := open * AllFaces();
    var outside := open - inside;
    assert open == inside + outside && inside * outside == {};
    assert |outside| == 0;
    assert outside == {};
  }

  /** `open_faces=None` stands for the empty set. */
  function OpenSet(openFaces: Option<set<int>>): set<int>
  {
    if openFaces.None? then {} else openFaces.value
  }

  /** The faces emitted for a given open set. */
  function Visible(openFaces: Option<set<int>>): (vis: seq<nat>)
    ensures forall i :: 0 <= i < |vis| ==> vis[i] < FaceCount && vis[i] !in OpenSet(openFaces)
  {
    VisibleUpTo(OpenSet(openFaces), FaceCount)
  }

  /** The vertex list `_generate` builds, before the float32 conversion and upload. */
  function Mesh(width: real, height: real, depth: real, colorFloor: Color, colorWall: Color, colorTop: Color,
                openFaces: Option<set<int>>): (m: seq<real>)
    ensures |m| == FloatsPerVertex * VerticesPerFace * |Visible(openFaces)|
  {
    MeshOf(FaceTable(width / 2.0, height / 2.0, depth / 2.0, colorFloor, colorWall, colorTop), Visible(openFaces))
  }

  /** The inner loop of `_generate`: append each corner of one face, followed by the face colour. */
  method EmitFace(vertices: seq<real>, face: Face) returns (out: seq<real>)
    requires |face.coords| == 3 * VerticesPerFace
    ensures out == vertices + FaceVertices(face)
  {
    var coords, col := face.coords, face.color;
    out := vertices;
    var i := 0;
    ghost var emitted: nat := 0;
    while i < |coords|
      invariant i == 3 * emitted && emitted <= VerticesPerFace
      invariant out == vertices + Interleave(coords, col, emitted)
    {
      out := out + [coords[i], coords[i + 1], coords[i + 2], col.r, col.g, col.b];
      i, emitted := i + 3, emitted + 1;
    }
  }

  /**
   * `Block._generate` without the GPU upload: the face table, then for each
   * face that is not open its six corners, each followed by the face colour.
   */
  method Generate(width: real, height: real, depth: real, colorFloor: Color, colorWall: Color, colorTop: Color,
                  openFaces: Option<set<int>>)
    returns (vertices: seq<real>, count: nat)
    ensures vertices == Mesh(width, height, depth, colorFloor, colorWall, colorTop, openFaces)
    ensures |vertices| == FloatsPerVertex * count
    ensures count == VerticesPerFace * |ClosedFaces(OpenSet(openFaces), FaceCount)|
  {
    var open := if openFaces.None? then {} else openFaces.value;
    var x, y, z := width / 2.0, height / 2.0, depth / 2.0;
    var faces := FaceTable(x, y, z, colorFloor, colorWall, colorTop);
    vertices := [];
    for idx := 0 to |faces|
      invariant vertices == MeshOf(faces, VisibleUpTo(open, idx))
    {
      ghost var vis := VisibleUpTo(open, idx);
      if idx in open {
        assert VisibleUpTo(open, idx + 1) == vis;
        continue;
      }
      vertices := EmitFace(vertices, faces[idx]);
      assert VisibleUpTo(open, idx + 1) == vis + [idx];
      assert (vis + [idx])[..|vis|] == vis;
    }
    ghost var closed := VerticesPerFace * |VisibleUpTo(open, FaceCount)|;
    assert |vertices| == FloatsPerVertex * closed;
    count := |vertices| / FloatsPerVertex;
    assert count == VerticesPerFace * |ClosedFaces(OpenSet(openFaces), FaceCount)| by {
      assert count == closed;
      VisibleCount(open, FaceCount);
    }
  }

  /** The face that vertex k of the mesh belongs to. */
  function FaceOfVertex(openFaces: Option<set<int>>, k: nat): nat
    requires k < VerticesPerFace * |Visible(openFaces)|
  {
    Visible(openFaces)[k / VerticesPerFace]
  }

  /** The colour role of each face: 0 to 3 are walls, 4 is the floor, 5 the top. */
  function FaceColor(f: nat, colorFloor: Color, colorWall: Color, colorTop: Color): Color
  {
    if f < 4 then colorWall else if f == 4 then colorFloor else colorTop
  }

  /**
   * What every corner of face f satisfies: it carries the face's colour,
   * each coordinate is a half-extent with either sign, and it lies on the
   * face's plane (z = -z for 0, z = +z for 1, x = -x for 2, x = +x for 3,
   * y = -y for 4, y = +y for 5).
   */
  predicate CornerOfFace(v: Vertex, f: nat, x: real, y: real, z: real, colorFloor: Color, colorWall: Color, colorTop: Color)
  {
    && v.color == FaceColor(f, colorFloor, colorWall, colorTop)
    && (v.position.x == -x || v.position.x == x)
    && (v.position.y == -y || v.position.y == y)
    && (v.position.z == -z || v.position.z == z)
    && (f == 0 ==> v.position.z == -z) && (f == 1 ==> v.position.z == z)
    && (f == 2 ==> v.position.x == -x) && (f == 3 ==> v.position.x == x)
    && (f == 4 ==> v.position.y == -y) && (f == 5 ==> v.position.y == y)
  }

  // One lemma per face: with both the face and the corner symbolic, the
  // solver unfolds the whole table literal and runs out of resource.

  lemma Face0Corners(x: real, y: real, z: real, colorFloor: Color, colorWall: Color, colorTop: Color, j: nat)
    requires j < VerticesPerFace
    ensures CornerOfFace(TableVertex(FaceTable(x, y, z, colorFloor, colorWall, colorTop)[0], j), 0, x, y, z, colorFloor, colorWall, colorTop)
  {
  }

  lemma Face1Corners(x: real, y: real, z: real, colorFloor: Color, colorWall: Color, colorTop: Color, j: nat)
    requires j < VerticesPerFace
    ensures CornerOfFace(TableVertex(FaceTable(x, y, z, colorFloor, colorWall, colorTop)[1], j), 1, x, y, z, colorFloor, colorWall, colorTop)
  {
  }

  lemma Face2Corners(x: real, y: real, z: real, colorFloor: Color, colorWall: Color, colorTop: Color, j: nat)
    requires j < VerticesPerFace
    ensures CornerOfFace(TableVertex(FaceTable(x, y, z, colorFloor, colorWall, colorTop)[2], j), 2, x, y, z, colorFloor, colorWall, colorTop)
  {
  }

  lemma Face3Corners(x: real, y: real, z: real, colorFloor: Color, colorWall: Color, colorTop: Color, j: nat)
    requires j < VerticesPerFace
    ensures CornerOfFace(TableVertex(FaceTable(x, y, z, colorFloor, colorWall, colorTop)[3], j), 3, x, y, z, colorFloor, colorWall, colorTop)
  {
  }

  lemma Face4Corners(x: real, y: real, z: real, colorFloor: Color, colorWall: Color, colorTop: Color, j: nat)
    requires j < VerticesPerFace
    ensures CornerOfFace(TableVertex(FaceTable(x, y, z, colorFloor, colorWall, colorTop)[4], j), 4, x, y, z, colorFloor, colorWall, colorTop)
  {
  }

  lemma Face5Corners(x: real, y: real, z: real, colorFloor: Color, colorWall: Color, colorTop: Color, j: nat)
    requires j < VerticesPerFace
    ensures CornerOfFace(TableVertex(FaceTable(x, y, z, colorFloor, colorWall, colorTop)[5], j), 5, x, y, z, colorFloor, colorWall, colorTop)
  {
  }

  /** Every corner of the face table satisfies CornerOfFace. */
  lemma FaceTableCorner(x: real, y: real, z: real, colorFloor: Color, colorWall: Color, colorTop: Color, f: nat, j: nat)
    requires f < FaceCount && j < VerticesPerFace
    ensures CornerOfFace(TableVertex(FaceTable(x, y, z, colorFloor, colorWall, colorTop)[f], j), f, x, y, z, colorFloor, colorWall, colorTop)
  {
    match f
    case 0 => Face0Corners(x, y, z, colorFloor, colorWall, colorTop, j);
    case 1 => Face1Corners(x, y, z, colorFloor, colorWall, colorTop, j);
    case 2 => Face2Corners(x, y, z, colorFloor, colorWall, colorTop, j);
    case 3 => Face3Corners(x, y, z, colorFloor, colorWall, colorTop, j);
    case 4 => Face4Corners(x, y, z, colorFloor, colorWall, colorTop, j);
    case 5 => Face5Corners(x, y, z, colorFloor, colorWall, colorTop, j);
  }

  /** The mesh has 6 floats per vertex and 6 vertices per emitted face. */
  lemma MeshLength(width: real, height: real, depth: real, colorFloor: Color, colorWall: Color, colorTop: Color,
                   openFaces: Option<set<int>>)
    ensures |Mesh(width, height, depth, colorFloor, colorWall, colorTop, openFaces)|
         == FloatsPerVertex * VerticesPerFace * |ClosedFaces(OpenSet(openFaces), FaceCount)|
  {
    VisibleCount(OpenSet(openFaces), FaceCount);
  }

  /**
   * Vertex k of the mesh is corner k % 6, in table order, of the (k / 6)-th
   * emitted face; that face is not open.
   */
  lemma MeshVertex(width: real, height: real, depth: real, colorFloor: Color, colorWall: Color, colorTop: Color,
                   openFaces: Option<set<int>>, k: nat)
    requires k < VerticesPerFace * |Visible(openFaces)|
    ensures |Mesh(width, height, depth, colorFloor, colorWall, colorTop, openFaces)| == FloatsPerVertex * VerticesPerFace * |Visible(openFaces)|
    ensures FaceOfVertex(openFaces, k) < FaceCount && FaceOfVertex(openFaces, k) !in OpenSet(openFaces)
    ensures VertexAt(Mesh(width, height, depth, colorFloor, colorWall, colorTop, openFaces), k)
         == TableVertex(FaceTable(width / 2.0, height / 2.0, depth / 2.0, colorFloor, colorWall, colorTop)[FaceOfVertex(openFaces, k)], k % VerticesPerFace)
  {
    var faces := FaceTable(width / 2.0, height / 2.0, depth / 2.0, colorFloor, colorWall, colorTop);
    MeshOfAt(faces, Visible(openFaces), k);
  }

  /** Every corner of every face of a table satisfies CornerOfFace. */
  predicate TableOnFaces(faces: seq<Face>, x: real, y: real, z: real, colorFloor: Color, colorWall: Color, colorTop: Color)
  {
    forall f, j :: 0 <= f < |faces| && 0 <= j < VerticesPerFace && 3 * j + 3 <= |faces[f].coords| ==>
      CornerOfFace(TableVertex(faces[f], j), f, x, y, z, colorFloor, colorWall, colorTop)
  }

  lemma FaceTableOnFaces(x: real, y: real, z: real, colorFloor: Color, colorWall: Color, colorTop: Color)
    ensures TableOnFaces(FaceTable(x, y, z, colorFloor, colorWall, colorTop), x, y, z, colorFloor, colorWall, colorTop)
  {
    var faces := FaceTable(x, y, z, colorFloor, colorWall, colorTop);
    forall f, j | 0 <= f < |faces| && 0 <= j < VerticesPerFace && 3 * j + 3 <= |faces[f].coords|
      ensures CornerOfFace(TableVertex(faces[f], j), f, x, y, z, colorFloor, colorWall, colorTop)
    {
      FaceTableCorner(x, y, z, colorFloor, colorWall, colorTop, f, j);
    }
  }

  lemma MeshOfOnFaces(faces: seq<Face>, vis: seq<nat>, k: nat, x: real, y: real, z: real,
                      colorFloor: Color, colorWall: Color, colorTop: Color)
    requires ValidFaces(faces, vis) && TableOnFaces(faces, x, y, z, colorFloor, colorWall, colorTop)
    requires k < VerticesPerFace * |vis|
    ensures k / VerticesPerFace < |vis|
    ensures CornerOfFace(VertexAt(MeshOf(faces, vis), k), vis[k / VerticesPerFace], x, y, z, colorFloor, colorWall, colorTop)
  {
    MeshOfAt(faces, vis, k);
  }

  /**
   * Every vertex carries its face's colour and lies on its face's plane:
   * z = -depth/2 for face 0, z = +depth/2 for face 1, x = -width/2 for 2,
   * x = +width/2 for 3, y = -height/2 for 4 and y = +height/2 for 5; every
   * coordinate is a half-extent with either sign.
   */
  lemma MeshVertexOnFace(width: real, height: real, depth: real, colorFloor: Color, colorWall: Color, colorTop: Color,
                         openFaces: Option<set<int>>, k: nat)
    requires k < VerticesPerFace * |Visible(openFaces)|
    ensures |Mesh(width, height, depth, colorFloor, colorWall, colorTop, openFaces)| == FloatsPerVertex * VerticesPerFace * |Visible(openFaces)|
    ensures CornerOfFace(VertexAt(Mesh(width, height, depth, colorFloor, colorWall, colorTop, openFaces), k),
                         FaceOfVertex(openFaces, k), width / 2.0, height / 2.0, depth / 2.0, colorFloor, colorWall, colorTop)
  {
    var (x, y, z) := (width / 2.0, height / 2.0, depth / 2.0);
    FaceTableOnFaces(x, y, z, colorFloor, colorWall, colorTop);
    MeshOfOnFaces(FaceTable(x, y, z, colorFloor, colorWall, colorTop), Visible(openFaces), k, x, y, z, colorFloor, colorWall, colorTop);
  }

  /**
   * Faces appear in ascending index order, and two vertices share a face
   * exactly when they lie in the same run of six.
   */
  lemma MeshFaceOrder(openFaces: Option<set<int>>, k1: nat, k2: nat)
    requires k1 <= k2 < VerticesPerFace * |Visible(openFaces)|
    ensures FaceOfVertex(openFaces, k1) <= FaceOfVertex(openFaces, k2)
    ensures FaceOfVertex(openFaces, k1) == FaceOfVertex(openFaces, k2) <==> k1 / VerticesPerFace == k2 / VerticesPerFace
  {
    VisibleExactlyClosed(OpenSet(openFaces), FaceCount);
    assert k1 / VerticesPerFace <= k2 / VerticesPerFace;
  }

  /** The vertices of face f are exactly those from 6 * start up to, not including, 6 * start + 6. */
  predicate FaceRun(openFaces: Option<set<int>>, f: int, start: nat)
  {
    && start < |Visible(openFaces)|
    && forall k :: 0 <= k < VerticesPerFace * |Visible(openFaces)| ==>
         (FaceOfVertex(openFaces, k) == f <==> VerticesPerFace * start <= k < VerticesPerFace * start + VerticesPerFace)
  }

  lemma ClosedFaceHasRun(openFaces: Option<set<int>>, f: int)
    requires f in ClosedFaces(OpenSet(openFaces), FaceCount)
    ensures exists start: nat :: FaceRun(openFaces, f, start)
  {
    var vis := Visible(openFaces);
    VisibleExactlyClosed(OpenSet(openFaces), FaceCount);
    assert f in vis;
    var start :| 0 <= start < |vis| && vis[start] == f;
    forall k | 0 <= k < VerticesPerFace * |vis|
      ensures FaceOfVertex(openFaces, k) == f <==> VerticesPerFace * start <= k < VerticesPerFace * start + VerticesPerFace
    {
      assert FaceOfVertex(openFaces, k) == vis[k / VerticesPerFace];
      assert vis[k / VerticesPerFace] == f <==> k / VerticesPerFace == start;
    }
    assert FaceRun(openFaces, f, start);
  }

  lemma RunFaceIsClosed(openFaces: Option<set<int>>, f: int, start: nat)
    requires FaceRun(openFaces, f, start)
    ensures f in ClosedFaces(OpenSet(openFaces), FaceCount)
  {
    var k := VerticesPerFace * start;
    assert k / VerticesPerFace == start;
    assert FaceOfVertex(openFaces, k) == f;
  }

  /** Every face that is not open, and only such a face, is emitted, as one run of six vertices. */
  lemma MeshCoversClosedFaces(openFaces: Option<set<int>>, f: int)
    ensures f in ClosedFaces(OpenSet(openFaces), FaceCount) <==> exists start: nat :: FaceRun(openFaces, f, start)
  {
    if f in ClosedFaces(OpenSet(openFaces), FaceCount) {
      ClosedFaceHasRun(openFaces, f);
    }
    forall start: nat | FaceRun(openFaces, f, start)
      ensures f in ClosedFaces(OpenSet(openFaces), FaceCount)
    {
      RunFaceIsClosed(openFaces, f, start);
    }
  }

  /** Only the indices 0 to 5 of the open set matter. */
  lemma {:induction false} VisibleIgnoresOtherIndices(open1: set<int>, open2: set<int>, n: nat)
    requires forall f :: 0 <= f < n ==> (f in open1 <==> f in open2)
    ensures VisibleUpTo(open1, n) == VisibleUpTo(open2, n)
  {
    if n > 0 {
      VisibleIgnoresOtherIndices(open1, open2, n - 1);
    }
  }

  lemma MeshIgnoresOtherIndices(width: real, height: real, depth: real, colorFloor: Color, colorWall: Color, colorTop: Color,
                                open1: set<int>, open2: set<int>)
    requires forall f :: 0 <= f < FaceCount ==> (f in open1 <==> f in open2)
    ensures Mesh(width, height, depth, colorFloor, colorWall, colorTop, Some(open1))
         == Mesh(width, height, depth, colorFloor, colorWall, colorTop, Some(open2))
  {
    VisibleIgnoresOtherIndices(open1, open2, FaceCount);
  }

  /** The faces emitted when none is open: all six, in order. */
  lemma AllFacesVisible()
    ensures VisibleUpTo({}, FaceCount) == [0, 1, 2, 3, 4, 5]
  {
  }

  /** `open_faces=None` is the empty set: the whole box, 36 vertices. */
  lemma NoOpenFacesIsWholeBox(width: real, height: real, depth: real, colorFloor: Color, colorWall: Color, colorTop: Color)
    ensures Mesh(width, height, depth, colorFloor, colorWall, colorTop, None)
         == Mesh(width, height, depth, colorFloor, colorWall, colorTop, Some({}))
    ensures |Mesh(width, height, depth, colorFloor, colorWall, colorTop, None)| == FloatsPerVertex * 36
  {
    AllFacesVisible();
  }

  /** With no open face, both opposite corners of the box are emitted, so the positions span the whole box. */
  lemma WholeBoxSpansExtents(width: real, height: real, depth: real, colorFloor: Color, colorWall: Color, colorTop: Color)
    ensures |Mesh(width, height, depth, colorFloor, colorWall, colorTop, None)| == FloatsPerVertex * 36
    ensures VertexAt(Mesh(width, height, depth, colorFloor, colorWall, colorTop, None), 0).position
         == Vec3(-width / 2.0, -height / 2.0, -depth / 2.0)
    ensures VertexAt(Mesh(width, height, depth, colorFloor, colorWall, colorTop, None), 8).position
         == Vec3(width / 2.0, height / 2.0, depth / 2.0)
  {
    AllFacesVisible();
    MeshVertex(width, height, depth, colorFloor, colorWall, colorTop, None, 0);
    MeshVertex(width, height, depth, colorFloor, colorWall, colorTop, None, 8);
  }

  /** The three blocks of the demo scene leave out faces {3}, {2} and {0, 1}. */
  lemma SceneFaceCounts()
    ensures |ClosedFaces({3}, FaceCount)| == 5
    ensures |ClosedFaces({2}, FaceCount)| == 5
    ensures |ClosedFaces({0, 1}, FaceCount)| == 4
  {
    VisibleCount({3}, FaceCount);
    VisibleCount({2}, FaceCount);
    VisibleCount({0, 1}, FaceCount);
    assert VisibleUpTo({3}, FaceCount) == [0, 1, 2, 4, 5];
    assert VisibleUpTo({2}, FaceCount) == [0, 1, 3, 4, 5];
    assert VisibleUpTo({0, 1}, FaceCount) == [2, 3, 4, 5];
  }

  /**
   * The colour lookups of `Block.__init__`, in argument order: floor, wall,
   * top; the first missing key raises KeyError.
   */
  function SelectColors(colors: map<string, Color>): (r: Result<(Color, Color, Color), BlockError>)
    ensures r.Ok? <==> "floor" in colors && "wall" in colors && "top" in colors
    ensures r.Ok? ==> r.value == (colors["floor"], colors["wall"], colors["top"])
    ensures r.Err? ==> r.error.key in ["floor", "wall", "top"] && r.error.key !in colors
    ensures r.Err? && r.error.key != "floor" ==> "floor" in colors
    ensures r.Err? && r.error.key == "top" ==> "wall" in colors
  {
    if "floor" !in colors then Err(KeyError("floor"))
    else if "wall" !in colors then Err(KeyError("wall"))
    else if "top" !in colors then Err(KeyError("top"))
    else Ok((colors["floor"], colors["wall"], colors["top"]))
  }

  /** `Block.__init__`: keeps the position and builds the mesh from the selected colours. */
  method NewBlock(width: real, height: real, depth: real, colors: map<string, Color>, position: Vec3,
                  openFaces: Option<set<int>>)
    returns (r: Result<Block, BlockError>)
    ensures r.Ok? <==> "floor" in colors && "wall" in colors && "top" in colors
    ensures r.Err? ==> r.error == SelectColors(colors).error
    ensures r.Ok? ==> r.value.position == position
    ensures r.Ok? ==> r.value.vertices == Mesh(width, height, depth, colors["floor"], colors["wall"], colors["top"], openFaces)
    ensures r.Ok? ==> r.value.count == VerticesPerFace * |ClosedFaces(OpenSet(openFaces), FaceCount)|
    ensures r.Ok? ==> |r.value.vertices| * FloatBytes == r.value.count * Stride
  {
    var selected := SelectColors(colors);
    if selected.Err? {
      return Err(selected.error);
    }
    var (colorFloor, colorWall, colorTop) := selected.value;
    var vertices, count := Generate(width, height, depth, colorFloor, colorWall, colorTop, openFaces);
    assert |vertices| * FloatBytes == count * Stride by {
      assert |vertices| == FloatsPerVertex * count && FloatBytes == 4 && Stride == 24;
    }
    r := Ok(Block(position, vertices, count));
  }

  /** The colour dictionary of the demo scene. */
  function SceneColors(): map<string, Color>
  {
    map["floor" := Color(0.2, 0.2, 0.3), "wall" := Color(0.8, 0.1, 0.4), "top" := Color(0.3, 0.3, 0.4)]
  }

  /** The demo scene: two 8x1x8 rooms opened towards each other and a 20x1x6 corridor between them. */
  method CreateScene() returns (blocks: seq<Block>)
    ensures |blocks| == 3
    ensures blocks[0].position == Vec3(-10.0, 0.0, 0.0) && blocks[0].count == 30
    ensures blocks[1].position == Vec3(10.0, 0.0, 0.0) && blocks[1].count == 30
    ensures blocks[2].position == Vec3(0.0, 0.0, 0.0) && blocks[2].count == 24
  {
    var colors := SceneColors();
    SceneFaceCounts();
    var left := NewBlock(8.0, 1.0, 8.0, colors, Vec3(-10.0, 0.0, 0.0), Some({3}));
    var right := NewBlock(8.0, 1.0, 8.0, colors, Vec3(10.0, 0.0, 0.0), Some({2}));
    var corridor := NewBlock(20.0, 1.0, 6.0, colors, Vec3(0.0, 0.0, 0.0), Some({0, 1}));
    blocks := [left.value, right.value, corridor.value];
  }
}
