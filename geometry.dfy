/** Triangle meshes as values: a vertex list and a list of index triples,
    and the one transform the core applies to them, a rigid translation. */
module Geometry {

  datatype Vec3 = Vec3(x: real, y: real, z: real)

  /** One triangular face: three indices into the vertex list. */
  datatype Face = Face(a: int, b: int, c: int)

  datatype Mesh = Mesh(vertices: seq<Vec3>, faces: seq<Face>)

  const Origin := Vec3(0.0, 0.0, 0.0)

  function Plus(p: Vec3, q: Vec3): Vec3 {
    Vec3(p.x + q.x, p.y + q.y, p.z + q.z)
  }

  function Negate(p: Vec3): Vec3 {
    Vec3(-p.x, -p.y, -p.z)
  }

  predicate FaceWithin(f: Face, n: int) {
    0 <= f.a < n && 0 <= f.b < n && 0 <= f.c < n
  }

  /** The mesh invariant: every face index names an existing vertex. */
  predicate WellFormed(m: Mesh) {
    forall i :: 0 <= i < |m.faces| ==> FaceWithin(m.faces[i], |m.vertices|)
  }

  /** `Trimesh.apply_translation`: every vertex moves by `offset`, the faces stay. */
  function Translate(m: Mesh, offset: Vec3): (r: Mesh)
    ensures |r.vertices| == |m.vertices| && r.faces == m.faces
    ensures forall j :: 0 <= j < |m.vertices| ==> r.vertices[j] == Plus(m.vertices[j], offset)
  {
    Mesh(seq(|m.vertices|, j requires 0 <= j < |m.vertices| => Plus(m.vertices[j], offset)), m.faces)
  }

  /** Translating keeps the mesh invariant. */
  lemma TranslatePreservesWellFormed(m: Mesh, offset: Vec3)
    requires WellFormed(m)
    ensures WellFormed(Translate(m, offset))
  {
  }

  /** Translating back by the opposite offset restores the mesh exactly. */
  lemma TranslateRoundTrip(m: Mesh, offset: Vec3)
    ensures Translate(Translate(m, offset), Negate(offset)) == m
  {
    var back := Translate(Translate(m, offset), Negate(offset));
    assert back.vertices == m.vertices;
  }

  /** Two translations in a row are one translation by the summed offset. */
  lemma TranslateCompose(m: Mesh, a: Vec3, b: Vec3)
    ensures Translate(Translate(m, a), b) == Translate(m, Plus(a, b))
  {
    assert Translate(Translate(m, a), b).vertices == Translate(m, Plus(a, b)).vertices;
  }

  /** Translating by the origin changes nothing. */
  lemma TranslateByOrigin(m: Mesh)
    ensures Translate(m, Origin) == m
  {
    assert Translate(m, Origin).vertices == m.vertices;
  }
}
