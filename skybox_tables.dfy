// Headers/Skybox.h: the unit cube the skybox is drawn with, and the byte images of
// its tables that the vertex and index buffers receive.
module SkyboxTables {
  import opened Common

  /** A cube corner; every coordinate of the table is -1 or 1, so integers hold it exactly. */
  datatype Point = Point(x: int, y: int, z: int)

  const CubeVertices: seq<Point> := [
    Point(-1, -1, -1), Point(-1, 1, -1), Point(1, 1, -1), Point(1, -1, -1),
    Point(-1, -1, 1), Point(-1, 1, 1), Point(1, 1, 1), Point(1, -1, 1)]

  /** Six faces (front, back, right, left, up, down) of two triangles each: the index
      table, one row of six per face. */
  const CubeFaces: seq<seq<nat>> := [
    [0, 1, 2, 2, 3, 0],
    [7, 6, 5, 5, 4, 7],
    [3, 2, 6, 6, 7, 3],
    [4, 5, 1, 1, 0, 4],
    [5, 6, 2, 2, 1, 5],
    [0, 3, 7, 7, 4, 0]]

  /** The 36 indices in table order. */
  const CubeIndices: seq<nat> := CubeFaces[0] + CubeFaces[1] + CubeFaces[2] + CubeFaces[3] + CubeFaces[4] + CubeFaces[5]

  const FaceCount: nat := 6

  /** The six indices of face group g. */
  function FaceIndices(g: nat): (r: seq<nat>)
    requires g < FaceCount
    ensures |r| == 6 && forall i :: 0 <= i < 6 ==> r[i] == CubeIndices[6 * g + i]
  {
    CubeFaces[g]
  }

  function Coordinate(p: Point, axis: nat): int
    requires axis < 3
  {
    if axis == 0 then p.x else if axis == 1 then p.y else p.z
  }

  /** All corners used by face group g sit on the plane `axis == value`. */
  predicate OnPlane(g: nat, axis: nat, value: int)
    requires g < FaceCount && axis < 3
  {
    forall i :: 0 <= i < 6 ==>
      FaceIndices(g)[i] < |CubeVertices| && Coordinate(CubeVertices[FaceIndices(g)[i]], axis) == value
  }

  lemma TableSizes()
    ensures |CubeVertices| == 8 && |CubeIndices| == 36 && |CubeIndices| == 6 * FaceCount
  {
  }

  /** Every index names a vertex of the table, and every vertex is named at least once. */
  lemma IndicesCoverVertices()
    ensures forall i :: 0 <= i < |CubeIndices| ==> CubeIndices[i] < |CubeVertices|
    ensures forall v :: 0 <= v < |CubeVertices| ==> v in CubeIndices
  {
    assert CubeIndices[0] == 0 && CubeIndices[1] == 1 && CubeIndices[2] == 2 && CubeIndices[4] == 3;
    assert CubeIndices[6] == 7 && CubeIndices[7] == 6 && CubeIndices[8] == 5 && CubeIndices[10] == 4;
  }

  lemma UnitCoordinates()
    ensures forall i :: 0 <= i < |CubeVertices| ==>
              CubeVertices[i].x in {-1, 1} && CubeVertices[i].y in {-1, 1} && CubeVertices[i].z in {-1, 1}
  {
  }

  /** The plane each face group lies on: front z=-1, back z=1, right x=1, left x=-1,
      up y=1, down y=-1. */
  function FacePlane(g: nat): (r: (nat, int))
    requires g < FaceCount
    ensures r.0 < 3 && r.1 in {-1, 1}
  {
    [(2, -1), (2, 1), (0, 1), (0, -1), (1, 1), (1, -1)][g]
  }

  /** Each group of six indices draws one face of the cube: all its corners share one
      coordinate, fixed at -1 or 1, and it uses exactly four distinct corners. */
  lemma FacesAreQuads(g: nat)
    requires g < FaceCount
    ensures OnPlane(g, FacePlane(g).0, FacePlane(g).1)
    ensures |set i | 0 <= i < 6 :: FaceIndices(g)[i]| == 4
  {
    var f := FaceIndices(g);
    if g == 0 {
      assert f == [0, 1, 2, 2, 3, 0];
    } else if g == 1 {
      assert f == [7, 6, 5, 5, 4, 7];
    } else if g == 2 {
      assert f == [3, 2, 6, 6, 7, 3];
    } else if g == 3 {
      assert f == [4, 5, 1, 1, 0, 4];
    } else if g == 4 {
      assert f == [5, 6, 2, 2, 1, 5];
    } else {
      assert f == [0, 3, 7, 7, 4, 0];
    }
    QuadCorners(f);
  }

  /** Six indices a b c c d a with a, b, c, d distinct name exactly four corners. */
  lemma QuadCorners(f: seq<nat>)
    requires |f| == 6 && f[3] == f[2] && f[5] == f[0]
    requires f[0] != f[1] && f[0] != f[2] && f[0] != f[4] && f[1] != f[2] && f[1] != f[4] && f[2] != f[4]
    ensures |set i | 0 <= i < 6 :: f[i]| == 4
  {
    var corners := set i | 0 <= i < 6 :: f[i];
    assert corners == {f[0], f[1], f[2], f[4]};
    assert {f[0], f[1], f[2], f[4]} == {f[0], f[1], f[2]} + {f[4]};
    assert {f[0], f[1], f[2]} == {f[0], f[1]} + {f[2]};
  }

  /** The two triangles of a face share exactly two corners: the diagonal of the quad. */
  lemma TrianglesShareDiagonal(g: nat)
    requires g < FaceCount
    ensures var f := FaceIndices(g);
            {f[0], f[1], f[2]} * {f[3], f[4], f[5]} == {f[2], f[0]} && f[2] != f[0]
  {
    var f := FaceIndices(g);
    assert g == 0 || g == 1 || g == 2 || g == 3 || g == 4 || g == 5;
  }

  // ------------------------------------------------------------ byte images

  /** The bytes of a uint16_t vector in memory, little-endian: value i occupies bytes 2i
      (low) and 2i+1 (high). */
  function IndexBytes(xs: seq<nat>): (r: seq<byte>)
    requires forall i :: 0 <= i < |xs| ==> xs[i] < U16Modulus
    ensures |r| == 2 * |xs|
  {
    seq(2 * |xs|, k requires 0 <= k < 2 * |xs| => if k % 2 == 0 then xs[k / 2] % 256 else xs[k / 2] / 256)
  }

  /** Reads a byte image back as uint16_t values. */
  function DecodeIndices(bytes: seq<byte>): (r: seq<nat>)
    ensures |r| == |bytes| / 2
  {
    seq(|bytes| / 2, i requires 0 <= i < |bytes| / 2 => bytes[2 * i] as int + 256 * bytes[2 * i + 1] as int)
  }

  lemma IndexBytesRoundTrip(xs: seq<nat>)
    requires forall i :: 0 <= i < |xs| ==> xs[i] < U16Modulus
    ensures DecodeIndices(IndexBytes(xs)) == xs
  {
    var b := IndexBytes(xs);
    forall i | 0 <= i < |xs|
      ensures DecodeIndices(b)[i] == xs[i]
    {
      assert (2 * i) % 2 == 0 && (2 * i) / 2 == i;
      assert (2 * i + 1) % 2 == 1 && (2 * i + 1) / 2 == i;
    }
  }

  /** The IEEE 754 single-precision encoding of 1.0f (0x3F800000) or -1.0f (0xBF800000),
      little-endian. */
  function UnitFloatByte(v: int, k: nat): (r: byte)
    requires k < 4
  {
    if k < 2 then 0x00 else if k == 2 then 0x80 else if v == 1 then 0x3F else 0xBF
  }

  /** Coordinate c of a corner. */
  function PointCoordinate(p: Point, c: nat): int
    requires c < 3
  {
    if c == 0 then p.x else if c == 1 then p.y else p.z
  }

  predicate UnitPoints(ps: seq<Point>)
  {
    forall i :: 0 <= i < |ps| ==> ps[i].x in {-1, 1} && ps[i].y in {-1, 1} && ps[i].z in {-1, 1}
  }

  /** The bytes of a glm::vec3 vector in memory: three floats of 4 bytes per corner. */
  function VertexBytes(ps: seq<Point>): (r: seq<byte>)
    ensures |r| == 12 * |ps|
  {
    seq(12 * |ps|, k requires 0 <= k < 12 * |ps| => UnitFloatByte(PointCoordinate(ps[k / 12], (k % 12) / 4), k % 4))
  }

  /** Reads a float of the byte image back: the sign byte tells 1.0f from -1.0f. */
  function DecodeUnitFloat(signByte: byte): int
  {
    if signByte == 0x3F then 1 else -1
  }

  function DecodeVertices(bytes: seq<byte>): (r: seq<Point>)
    ensures |r| == |bytes| / 12
  {
    seq(|bytes| / 12, i requires 0 <= i < |bytes| / 12 =>
      Point(DecodeUnitFloat(bytes[12 * i + 3]), DecodeUnitFloat(bytes[12 * i + 7]), DecodeUnitFloat(bytes[12 * i + 11])))
  }

  lemma VertexBytesRoundTrip(ps: seq<Point>)
    requires UnitPoints(ps)
    ensures DecodeVertices(VertexBytes(ps)) == ps
  {
    var b := VertexBytes(ps);
    forall i | 0 <= i < |ps|
      ensures DecodeVertices(b)[i] == ps[i]
    {
      SignByte(ps, i, 0);
      SignByte(ps, i, 1);
      SignByte(ps, i, 2);
    }
  }

  /** The last byte of float c of corner i carries that coordinate's sign. */
  lemma SignByte(ps: seq<Point>, i: nat, c: nat)
    requires i < |ps| && c < 3
    ensures VertexBytes(ps)[12 * i + 4 * c + 3] == UnitFloatByte(PointCoordinate(ps[i], c), 3)
  {
    var k := 12 * i + 4 * c + 3;
    assert k / 12 == i && k % 12 == 4 * c + 3;
    assert (k % 12) / 4 == c && k % 4 == 3;
  }

  /** The bytes the skybox's vertex buffer receives: 8 vec3 of 12 bytes. */
  function CubeVertexBytes(): (r: seq<byte>)
    ensures |r| == 12 * |CubeVertices| == 96
  {
    VertexBytes(CubeVertices)
  }

  /** The bytes the skybox's index buffer receives: 36 uint16_t. */
  function CubeIndexBytes(): (r: seq<byte>)
    ensures |r| == 2 * |CubeIndices| == 72
  {
    IndicesCoverVertices();
    IndexBytes(CubeIndices)
  }

  /** Both byte images read back as the tables they were made from. */
  lemma CubeBytesRoundTrip()
    ensures DecodeVertices(CubeVertexBytes()) == CubeVertices
    ensures DecodeIndices(CubeIndexBytes()) == CubeIndices
  {
    UnitCoordinates();
    IndicesCoverVertices();
    VertexBytesRoundTrip(CubeVertices);
    IndexBytesRoundTrip(CubeIndices);
  }
}
