/**
 * `VisionCone.BuildCone`: the triangle fan that draws an agent's field of
 * view. Only the vertex slots and the triangle indices are modelled; the
 * sine/cosine vertex coordinates stand behind `Arc(step)`.
 */
module VisionCone {
  import opened Wrappers
  import opened Int32

  /**
   * A vertex slot: the cone's centre, or the arc point of sweep step `step`
   * (at angle -half + step / segments * 2 * half, at the cone's distance).
   */
  datatype Vertex = Centre | Arc(step: int)

  /** The vertex and triangle-index arrays handed to the mesh. */
  datatype ConeMesh = ConeMesh(vertices: array<Vertex>, triangles: array<int>)

  /** The index stored at position `k` of the triangle array: triangle k / 3 is (0, k/3 + 1, k/3 + 2). */
  function FanIndex(k: nat): (v: nat)
    ensures v <= k / 3 + 2
    ensures k % 3 == 0 <==> v == 0
  {
    if k % 3 == 0 then 0 else k / 3 + k % 3
  }

  /** Triangle `i` of the fan is (0, i + 1, i + 2): the centre and two neighbouring arc points. */
  lemma {:induction false} FanTriangle(i: nat)
    ensures FanIndex(3 * i) == 0
    ensures FanIndex(3 * i + 1) == i + 1
    ensures FanIndex(3 * i + 2) == i + 2
  {
    assert (3 * i) % 3 == 0 && (3 * i + 1) % 3 == 1 && (3 * i + 2) % 3 == 2;
    assert (3 * i + 1) / 3 == i && (3 * i + 2) / 3 == i;
  }

  /** Every index of a fan of `segments` triangles names one of its `segments + 2` vertices. */
  lemma FanIndexInRange(segments: nat, k: nat)
    requires k < 3 * segments
    ensures FanIndex(k) < segments + 2
  {
    assert k / 3 < segments;
  }

  /**
   * `BuildCone`. `None` stands for the exceptions C# throws: a negative
   * `segments` gives an array of negative size, and a `segments * 3` that
   * overflows 32 bits gives a triangle array too short for the loop.
   * Otherwise the vertex array has `segments + 2` slots, slot 0 the centre and
   * slot `k` the arc point of step `k - 1`, and the triangle array has
   * `3 * segments` indices, triangle `i` being (0, i + 1, i + 2).
   */
  method BuildCone(segments: int32) returns (mesh: Option<ConeMesh>)
    ensures mesh.None? <==> segments < 0 || 3 * segments > Int32Max
    ensures mesh.Some? ==> mesh.value.vertices.Length == segments + 2
    ensures mesh.Some? ==> mesh.value.vertices[0] == Centre
    ensures mesh.Some? ==> forall k :: 1 <= k < mesh.value.vertices.Length ==> mesh.value.vertices[k] == Arc(k - 1)
    ensures mesh.Some? ==> mesh.value.triangles.Length == 3 * segments
    ensures mesh.Some? ==> forall k :: 0 <= k < mesh.value.triangles.Length ==> mesh.value.triangles[k] == FanIndex(k)
  {
    if segments < 0 || 3 * segments > Int32Max {
      return None;
    }
    var vCount := segments + 2;
    var vtx := new Vertex[vCount](_ => Centre);
    var tris := new int[segments * 3];

    vtx[0] := Centre;
    var i := 0;
    while i <= segments
      modifies vtx
      invariant 0 <= i <= segments + 1
      invariant vtx[0] == Centre
      invariant forall k :: 1 <= k <= i ==> vtx[k] == Arc(k - 1)
    {
      vtx[i + 1] := Arc(i);
      i := i + 1;
    }

    var ti := 0;
    i := 0;
    while i < segments
      modifies tris
      invariant 0 <= i <= segments
      invariant ti == 3 * i
      invariant forall k :: 0 <= k < ti ==> tris[k] == FanIndex(k)
    {
      FanTriangle(i);
      tris[ti] := 0;
      ti := ti + 1;
      tris[ti] := i + 1;
      ti := ti + 1;
      tris[ti] := i + 2;
      ti := ti + 1;
      i := i + 1;
    }
    assert ti == tris.Length;
    mesh := Some(ConeMesh(vtx, tris));
  }
}
