/**
  The index arithmetic of the mikktspace adapter: the tangent generator asks for
  vertex `vert` of face `face`, and a triangle list stores that corner at
  position `face * 3 + vert` of the index list. The accessors that use it live
  on `VertexMesh.CpuMesh`, the type they are implemented for.
 */
module Mikktspace {

  /** Every face of a triangle list has three corners. */
  const VerticesPerFace: nat := 3

  /** Position in the index list of corner `vert` of face `face`. */
  function FaceVertToIndex(face: nat, vert: nat): (i: nat)
    ensures vert < VerticesPerFace ==> i / 3 == face && i % 3 == vert
  {
    face * 3 + vert
  }

  /**
    Faces of an index list of `indexCount` entries: whole triangles only, the
    one or two trailing indices of an incomplete triangle are ignored.
   */
  function NumFaces(indexCount: nat): (n: nat)
    ensures 3 * n <= indexCount < 3 * n + 3
  {
    indexCount / 3
  }

  /** The corners of the faces cover exactly the complete triangles of the list, once each. */
  lemma FaceCornersCoverIndexList(indexCount: nat, i: nat)
    ensures i < 3 * NumFaces(indexCount) <==>
      (i / 3 < NumFaces(indexCount) && FaceVertToIndex(i / 3, i % 3) == i)
  {
  }

  lemma FaceVertToIndexInjective(f1: nat, v1: nat, f2: nat, v2: nat)
    requires v1 < VerticesPerFace && v2 < VerticesPerFace
    requires FaceVertToIndex(f1, v1) == FaceVertToIndex(f2, v2)
    ensures f1 == f2 && v1 == v2
  {
  }

  /** A corner of a face below `NumFaces` lies inside the index list. */
  lemma FaceCornerInRange(indexCount: nat, face: nat, vert: nat)
    requires face < NumFaces(indexCount) && vert < VerticesPerFace
    ensures FaceVertToIndex(face, vert) < indexCount
  {
  }
}
