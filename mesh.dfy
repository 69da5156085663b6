/**
 * The static debug cube of src/render.rs: `Vertex::new` and the `DEBUG_CUBE`
 * tables, 24 vertices (four per face) and 36 `u16` indices (two triangles per
 * face).
 */
module Mesh {

  /** Rust's `i8` and `u16`. */
  type I8 = x: int | -128 <= x < 128
  type U16 = x: int | 0 <= x < 0x1_0000

  type Corner = s: seq<I8> | |s| == 3 witness [0, 0, 0]
  type TexCoord = s: seq<I8> | |s| == 2 witness [0, 0]

  /** A vertex: homogeneous position `[x, y, z, w]` and texture coordinate. */
  datatype Vertex = Vertex(pos: seq<I8>, texCoord: seq<I8>)

  /** `Vertex::new`: the corner is extended with `w = 1`. */
  function NewVertex(p: Corner, t: TexCoord): (v: Vertex)
    ensures |v.pos| == 4 && v.pos[3] == 1
    ensures forall c :: 0 <= c < 3 ==> v.pos[c] == p[c]
    ensures v.texCoord == t
  {
    Vertex([p[0], p[1], p[2], 1], t)
  }

  const VERTEX_COUNT := 24
  const INDEX_COUNT := 36

  /**
   * `DEBUG_CUBE.0`, one face at a time: face k's four corners in the order
   * the table lists them (top, bottom, right, left, front, back).
   */
  function FaceVertices(k: nat): (f: seq<Vertex>)
    requires k < 6
    ensures |f| == 4
  {
    if k == 0 then // top (0, 0, 1)
      [
        NewVertex([-1, -1,  1], [0, 0]),
        NewVertex([ 1, -1,  1], [1, 0]),
        NewVertex([ 1,  1,  1], [1, 1]),
        NewVertex([-1,  1,  1], [0, 1])
      ]
    else if k == 1 then // bottom (0, 0, -1)
      [
        NewVertex([-1,  1, -1], [1, 0]),
        NewVertex([ 1,  1, -1], [0, 0]),
        NewVertex([ 1, -1, -1], [0, 1]),
        NewVertex([-1, -1, -1], [1, 1])
      ]
    else if k == 2 then // right (1, 0, 0)
      [
        NewVertex([ 1, -1, -1], [0, 0]),
        NewVertex([ 1,  1, -1], [1, 0]),
        NewVertex([ 1,  1,  1], [1, 1]),
        NewVertex([ 1, -1,  1], [0, 1])
      ]
    else if k == 3 then // left (-1, 0, 0)
      [
        NewVertex([-1, -1,  1], [1, 0]),
        NewVertex([-1,  1,  1], [0, 0]),
        NewVertex([-1,  1, -1], [0, 1]),
        NewVertex([-1, -1, -1], [1, 1])
      ]
    else if k == 4 then // front (0, 1, 0)
      [
        NewVertex([ 1,  1, -1], [1, 0]),
        NewVertex([-1,  1, -1], [0, 0]),
        NewVertex([-1,  1,  1], [0, 1]),
        NewVertex([ 1,  1,  1], [1, 1])
      ]
    else // back (0, -1, 0)
      [
        NewVertex([ 1, -1,  1], [0, 0]),
        NewVertex([-1, -1,  1], [1, 0]),
        NewVertex([-1, -1, -1], [1, 1]),
        NewVertex([ 1, -1, -1], [0, 1])
      ]
  }

  /** The first n faces of the table, in order. */
  function Faces(n: nat): (r: seq<Vertex>)
    requires n <= 6
    ensures |r| == 4 * n
  {
    if n == 0 then [] else Faces(n - 1) + FaceVertices(n - 1)
  }

  /** `DEBUG_CUBE.0`: the six faces' vertices, 24 in all. */
  function CubeVertices(): (r: seq<Vertex>)
    ensures |r| == VERTEX_COUNT
  {
    Faces(6)
  }

  /** `DEBUG_CUBE.1`. */
  function CubeIndices(): (r: seq<U16>)
    ensures |r| == INDEX_COUNT
  {
    [
       0,  1,  2,  2,  3,  0, // top
       4,  5,  6,  6,  7,  4, // bottom
       8,  9, 10, 10, 11,  8, // right
      12, 13, 14, 14, 15, 12, // left
      16, 17, 18, 18, 19, 16, // front
      20, 21, 22, 22, 23, 20  // back
    ]
  }

  /** The two triangles of a quad with corners 0, 1, 2, 3: (0, 1, 2) and (2, 3, 0). */
  const QUAD: seq<nat> := [0, 1, 2, 2, 3, 0]

  /** The coordinate that is constant on face k. */
  function FaceAxis(k: nat): (a: nat)
    requires k < 6
    ensures a < 3
  {
    if k < 2 then 2 else if k < 4 then 0 else 1
  }

  /** The value of that coordinate on face k: +1 on even faces, -1 on odd ones. */
  function FaceSide(k: nat): I8
    requires k < 6
  {
    if k % 2 == 0 then 1 else -1
  }

  /**
   * The index table is well formed: 36 indices, each naming one of the 24
   * vertices, and face k's six indices are `4k` plus the quad pattern.
   */
  lemma IndicesWellFormed()
    ensures |CubeIndices()| == INDEX_COUNT
    ensures forall i :: 0 <= i < |CubeIndices()| ==> CubeIndices()[i] < VERTEX_COUNT
    ensures forall i :: 0 <= i < |CubeIndices()| ==> CubeIndices()[i] == 4 * (i / 6) + QUAD[i % 6]
  {
    var r := CubeIndices();
    forall i | 0 <= i < |r| ensures r[i] == 4 * (i / 6) + QUAD[i % 6] {
      // each index read off the table, one face per line
      if i == 0 {} else if i == 1 {} else if i == 2 {} else if i == 3 {} else if i == 4 {} else if i == 5 {}  // top
      else if i == 6 {} else if i == 7 {} else if i == 8 {} else if i == 9 {} else if i == 10 {} else if i == 11 {}  // bottom
      else if i == 12 {} else if i == 13 {} else if i == 14 {} else if i == 15 {} else if i == 16 {} else if i == 17 {}  // right
      else if i == 18 {} else if i == 19 {} else if i == 20 {} else if i == 21 {} else if i == 22 {} else if i == 23 {}  // left
      else if i == 24 {} else if i == 25 {} else if i == 26 {} else if i == 27 {} else if i == 28 {} else if i == 29 {}  // front
      else if i == 30 {} else if i == 31 {} else if i == 32 {} else if i == 33 {} else if i == 34 {} else {}  // back
    }
  }

  predicate Unit(x: int) { x == 1 || x == -1 }
  predicate Bit(x: int) { x == 0 || x == 1 }

  /**
   * A vertex of face k: a homogeneous point (`w = 1`) on a corner of the cube
   * `[-1, 1]^3`, lying in face k's plane, with its texture coordinate on a
   * corner of the unit square.
   */
  predicate OnFace(k: nat, v: Vertex)
    requires k < 6
  {
    && |v.pos| == 4 && v.pos[3] == 1
    && Unit(v.pos[0]) && Unit(v.pos[1]) && Unit(v.pos[2])
    && v.pos[FaceAxis(k)] == FaceSide(k)
    && |v.texCoord| == 2
    && Bit(v.texCoord[0]) && Bit(v.texCoord[1])
  }

  /** Each face lists four vertices of that face. */
  lemma FaceWellFormed(k: nat)
    requires k < 6
    ensures OnFace(k, FaceVertices(k)[0]) && OnFace(k, FaceVertices(k)[1])
    ensures OnFace(k, FaceVertices(k)[2]) && OnFace(k, FaceVertices(k)[3])
  {
    // one branch per face, so that each reads only its own four rows
    if k == 0 {
      var f := FaceVertices(0);
      assert OnFace(0, f[0]) && OnFace(0, f[1]) && OnFace(0, f[2]) && OnFace(0, f[3]);
    } else if k == 1 {
      var f := FaceVertices(1);
      assert OnFace(1, f[0]) && OnFace(1, f[1]) && OnFace(1, f[2]) && OnFace(1, f[3]);
    } else if k == 2 {
      var f := FaceVertices(2);
      assert OnFace(2, f[0]) && OnFace(2, f[1]) && OnFace(2, f[2]) && OnFace(2, f[3]);
    } else if k == 3 {
      var f := FaceVertices(3);
      assert OnFace(3, f[0]) && OnFace(3, f[1]) && OnFace(3, f[2]) && OnFace(3, f[3]);
    } else if k == 4 {
      var f := FaceVertices(4);
      assert OnFace(4, f[0]) && OnFace(4, f[1]) && OnFace(4, f[2]) && OnFace(4, f[3]);
    } else {
      var f := FaceVertices(5);
      assert OnFace(5, f[0]) && OnFace(5, f[1]) && OnFace(5, f[2]) && OnFace(5, f[3]);
    }
  }

  /** Vertex i of the first n faces is corner `i % 4` of face `i / 4`. */
  lemma {:induction false} FacesIndexed(n: nat)
    requires n <= 6
    ensures |Faces(n)| == 4 * n
    ensures forall i :: 0 <= i < 4 * n ==> Faces(n)[i] == FaceVertices(i / 4)[i % 4]
  {
    if n > 0 {
      FacesIndexed(n - 1);
      var prev, last := Faces(n - 1), FaceVertices(n - 1);
      assert Faces(n) == prev + last;
      forall i | 0 <= i < 4 * n ensures Faces(n)[i] == FaceVertices(i / 4)[i % 4] {
        if i >= 4 * (n - 1) {
          assert Faces(n)[i] == last[i - 4 * (n - 1)];
        }
      }
    }
  }

  /**
   * The vertex table is well formed: 24 vertices, and vertices `4k` to
   * `4k + 3` are four vertices of face k.
   */
  lemma VerticesWellFormed()
    ensures |CubeVertices()| == VERTEX_COUNT
    ensures forall i :: 0 <= i < |CubeVertices()| ==> OnFace(i / 4, CubeVertices()[i])
  {
    FacesIndexed(6);
    forall i | 0 <= i < |CubeVertices()| ensures OnFace(i / 4, CubeVertices()[i]) {
      FaceWellFormed(i / 4);
      var j := i % 4;
      if j == 0 {
      } else if j == 1 {
      } else if j == 2 {
      } else {
      }
    }
  }
}
