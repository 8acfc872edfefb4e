/**
 * The unit cube the deferred-shading sample draws: 24 vertices (four per
 * face, so each face has its own normal, tangent and texture coordinates)
 * and 36 indices (two triangles per face).
 */
module CubeGeometry {
  datatype Float2 = Float2(x: real, y: real)
  datatype Float3 = Float3(x: real, y: real, z: real)
  datatype Float4 = Float4(x: real, y: real, z: real, w: real)

  const CUBE_FACES: nat := 6
  const VERTICES_PER_FACE: nat := 4
  const INDICES_PER_FACE: nat := 6
  const VERTEX_COUNT: nat := 24
  const INDEX_COUNT: nat := 36

  /** Faces in table order: front (-z), right (+x), left (-x), back (+z), top (+y), bottom (-y). */
  const POSITIONS: seq<Float3> := [
    Float3(-0.5, 0.5, -0.5), Float3(0.5, -0.5, -0.5), Float3(-0.5, -0.5, -0.5), Float3(0.5, 0.5, -0.5),
    Float3(0.5, -0.5, -0.5), Float3(0.5, 0.5, 0.5), Float3(0.5, -0.5, 0.5), Float3(0.5, 0.5, -0.5),
    Float3(-0.5, 0.5, 0.5), Float3(-0.5, -0.5, -0.5), Float3(-0.5, -0.5, 0.5), Float3(-0.5, 0.5, -0.5),
    Float3(0.5, 0.5, 0.5), Float3(-0.5, -0.5, 0.5), Float3(0.5, -0.5, 0.5), Float3(-0.5, 0.5, 0.5),
    Float3(-0.5, 0.5, -0.5), Float3(0.5, 0.5, 0.5), Float3(0.5, 0.5, -0.5), Float3(-0.5, 0.5, 0.5),
    Float3(0.5, -0.5, 0.5), Float3(-0.5, -0.5, -0.5), Float3(0.5, -0.5, -0.5), Float3(-0.5, -0.5, 0.5)]

  const TEXCOORDS: seq<Float2> := [
    Float2(0.0, 0.0), Float2(1.0, 1.0), Float2(0.0, 1.0), Float2(1.0, 0.0),
    Float2(0.0, 1.0), Float2(1.0, 0.0), Float2(1.0, 1.0), Float2(0.0, 0.0),
    Float2(0.0, 0.0), Float2(1.0, 1.0), Float2(0.0, 1.0), Float2(1.0, 0.0),
    Float2(0.0, 0.0), Float2(1.0, 1.0), Float2(0.0, 1.0), Float2(1.0, 0.0),
    Float2(0.0, 1.0), Float2(1.0, 0.0), Float2(1.0, 1.0), Float2(0.0, 0.0),
    Float2(1.0, 1.0), Float2(0.0, 0.0), Float2(1.0, 0.0), Float2(0.0, 1.0)]

  /** The outward normal of each face, as given to the snorm8 packing. */
  const FACE_NORMALS: seq<Float4> := [
    Float4(0.0, 0.0, -1.0, 0.0), Float4(1.0, 0.0, 0.0, 0.0), Float4(-1.0, 0.0, 0.0, 0.0),
    Float4(0.0, 0.0, 1.0, 0.0), Float4(0.0, 1.0, 0.0, 0.0), Float4(0.0, -1.0, 0.0, 0.0)]

  /** The tangent of each face, with handedness +1 in w. */
  const FACE_TANGENTS: seq<Float4> := [
    Float4(1.0, 0.0, 0.0, 1.0), Float4(0.0, 0.0, 1.0, 1.0), Float4(0.0, 0.0, -1.0, 1.0),
    Float4(-1.0, 0.0, 0.0, 1.0), Float4(1.0, 0.0, 0.0, 1.0), Float4(1.0, 0.0, 0.0, 1.0)]

  /** The normal table (before snorm8 packing): each face's normal, four times. */
  const NORMALS: seq<Float4> := seq(VERTEX_COUNT, v requires 0 <= v < VERTEX_COUNT => FACE_NORMALS[v / VERTICES_PER_FACE])

  /** The tangent table (before snorm8 packing): each face's tangent, four times. */
  const TANGENTS: seq<Float4> := seq(VERTEX_COUNT, v requires 0 <= v < VERTEX_COUNT => FACE_TANGENTS[v / VERTICES_PER_FACE])

  const INDICES: seq<nat> := [
    0, 1, 2, 0, 3, 1,
    4, 5, 6, 4, 7, 5,
    8, 9, 10, 8, 11, 9,
    12, 13, 14, 12, 15, 13,
    16, 17, 18, 16, 19, 17,
    20, 21, 22, 20, 23, 21]

  /** Corner pattern of a face's two triangles: (0, 1, 2) and (0, 3, 1). */
  const FACE_CORNERS: seq<nat> := [0, 1, 2, 0, 3, 1]

  /** The vertex tables have four entries per face, the index table six per face. */
  lemma TableSizes()
    ensures |POSITIONS| == |TEXCOORDS| == |NORMALS| == |TANGENTS| == VERTEX_COUNT == CUBE_FACES * VERTICES_PER_FACE
    ensures |INDICES| == INDEX_COUNT == CUBE_FACES * INDICES_PER_FACE
  {
  }

  /** Every index addresses one of the 24 vertices. */
  lemma IndicesInRange()
    ensures forall i :: 0 <= i < |INDICES| ==> INDICES[i] < VERTEX_COUNT
  {
  }

  /** Index i belongs to face i / 6 and is 4 * (i / 6) plus the corner pattern. */
  lemma FaceIndices()
    ensures |INDICES| == INDEX_COUNT
    ensures forall i :: 0 <= i < |INDICES| ==>
      INDICES[i] == VERTICES_PER_FACE * (i / INDICES_PER_FACE) + FACE_CORNERS[i % INDICES_PER_FACE]
  {
    forall i | 0 <= i < |INDICES|
      ensures INDICES[i] == VERTICES_PER_FACE * (i / INDICES_PER_FACE) + FACE_CORNERS[i % INDICES_PER_FACE]
    {
      var f := i / INDICES_PER_FACE;
      assert i == INDICES_PER_FACE * f + i % INDICES_PER_FACE;
      if f == 0 {} else if f == 1 {} else if f == 2 {} else if f == 3 {} else if f == 4 {} else {}
    }
  }

  /** Index k of face f is 4f plus corner k of (0, 1, 2, 0, 3, 1): the face's indices are exactly 4f, 4f+1, 4f+2, 4f, 4f+3, 4f+1. */
  lemma FaceIndexAt(f: nat, k: nat)
    requires f < CUBE_FACES && k < INDICES_PER_FACE
    ensures INDICES[INDICES_PER_FACE * f + k] == VERTICES_PER_FACE * f + FACE_CORNERS[k]
  {
    FaceIndices();
    var i := INDICES_PER_FACE * f + k;
    assert i / INDICES_PER_FACE == f && i % INDICES_PER_FACE == k;
  }

  /** The six indices of face f reference only that face's four vertices. */
  lemma FaceIndicesStayInFace(f: nat, k: nat)
    requires f < CUBE_FACES && k < INDICES_PER_FACE
    ensures VERTICES_PER_FACE * f <= INDICES[INDICES_PER_FACE * f + k] < VERTICES_PER_FACE * f + VERTICES_PER_FACE
  {
    FaceIndexAt(f, k);
  }

  /** All texture coordinates are corners of the texture. */
  lemma TexCoordsAreCorners()
    ensures forall v :: 0 <= v < |TEXCOORDS| ==>
      (TEXCOORDS[v].x == 0.0 || TEXCOORDS[v].x == 1.0) && (TEXCOORDS[v].y == 0.0 || TEXCOORDS[v].y == 1.0)
  {
  }

  /** The four normals (and tangents) of a face are identical. */
  lemma FaceNormalsShared(v: nat)
    requires v < VERTEX_COUNT
    ensures NORMALS[v] == NORMALS[VERTICES_PER_FACE * (v / VERTICES_PER_FACE)]
    ensures TANGENTS[v] == TANGENTS[VERTICES_PER_FACE * (v / VERTICES_PER_FACE)]
  {
    var f := v / VERTICES_PER_FACE;
    assert (VERTICES_PER_FACE * f) / VERTICES_PER_FACE == f;
  }

  /** The dot product of a position with the xyz part of a normal or tangent. */
  function Dot(a: Float3, b: Float4): real
  {
    a.x * b.x + a.y * b.y + a.z * b.z
  }

  /** Every vertex of face f lies on that face's plane: half a unit along the outward normal. */
  lemma VerticesOnFacePlane()
    ensures forall v :: 0 <= v < VERTEX_COUNT ==> Dot(POSITIONS[v], NORMALS[v]) == 0.5
  {
  }

  /** Each tangent lies in its face's plane. */
  lemma TangentsInFacePlane()
    ensures forall f :: 0 <= f < CUBE_FACES ==>
      FACE_TANGENTS[f].x * FACE_NORMALS[f].x + FACE_TANGENTS[f].y * FACE_NORMALS[f].y + FACE_TANGENTS[f].z * FACE_NORMALS[f].z == 0.0
  {
  }
}
