/** `Shape.create_3D_mesh`: a closed dispatch on the shape name. Square,
    triangle and pyramid are literal vertex and face lists scaled by the
    size; circle, sphere and cube come from trimesh.creation; any other
    name is a ValueError. */
module Shapes {
  import opened Results
  import opened Geometry
  import opened Externals

  /** The `Shape` object: its two fields are only read. */
  datatype Shape = Shape(form: string, size: real)

  const SupportedForms: set<string> := {"circle", "square", "triangle", "sphere", "cube", "pyramid"}

  /** Number of angular sections of the flat cylinder that stands for a circle. */
  const CircleSections := 50
  /** Subdivision level of the icosphere that stands for a sphere. */
  const SphereSubdivisions := 3

  /** The quad at height 0 with corners (±s, ±s, 0), split along its 0–2 diagonal. */
  function SquareMesh(s: real): (m: Mesh)
    ensures |m.vertices| == 4 && |m.faces| == 2 && WellFormed(m)
    ensures forall j :: 0 <= j < 4 ==>
      m.vertices[j].z == 0.0 && (m.vertices[j].x == s || m.vertices[j].x == -s)
                             && (m.vertices[j].y == s || m.vertices[j].y == -s)
    ensures s != 0.0 ==> forall i, j :: 0 <= i < j < 4 ==> m.vertices[i] != m.vertices[j]
    ensures m.vertices[0] == Vec3(-s, -s, 0.0) && m.vertices[1] == Vec3(s, -s, 0.0)
    ensures m.vertices[2] == Vec3(s, s, 0.0) && m.vertices[3] == Vec3(-s, s, 0.0)
    ensures m.faces[0] == Face(0, 1, 2) && m.faces[1] == Face(0, 2, 3)
  {
    Mesh([Vec3(-s, -s, 0.0), Vec3(s, -s, 0.0), Vec3(s, s, 0.0), Vec3(-s, s, 0.0)],
         [Face(0, 1, 2), Face(0, 2, 3)])
  }

  /** The triangle with apex (0, s, 0) and base corners (±s, -s, 0). */
  function TriangleMesh(s: real): (m: Mesh)
    ensures |m.vertices| == 3 && m.faces == [Face(0, 1, 2)] && WellFormed(m)
    ensures m.vertices[0] == Vec3(0.0, s, 0.0)
    ensures forall j :: 1 <= j < 3 ==> m.vertices[j].y == -s && m.vertices[j].z == 0.0
    ensures m.vertices[1].x == s && m.vertices[2].x == -s
  {
    Mesh([Vec3(0.0, s, 0.0), Vec3(s, -s, 0.0), Vec3(-s, -s, 0.0)], [Face(0, 1, 2)])
  }

  /** The square's four corners as base, apex (0, 0, s) at index 4, four side
      faces through the apex, then the square's two faces as the base. */
  function PyramidMesh(s: real): (m: Mesh)
    ensures |m.vertices| == 5 && |m.faces| == 6 && WellFormed(m)
    ensures m.vertices[..4] == SquareMesh(s).vertices
    ensures m.vertices[4] == Vec3(0.0, 0.0, s)
    ensures forall i :: 0 <= i < 4 ==> m.faces[i].c == 4
    ensures forall i :: 0 <= i < 4 ==> m.faces[i].a == i && m.faces[i].b == (i + 1) % 4
    ensures m.faces[4..] == SquareMesh(s).faces
  {
    Mesh([Vec3(-s, -s, 0.0), Vec3(s, -s, 0.0), Vec3(s, s, 0.0), Vec3(-s, s, 0.0), Vec3(0.0, 0.0, s)],
         [Face(0, 1, 4), Face(1, 2, 4), Face(2, 3, 4), Face(3, 0, 4), Face(0, 1, 2), Face(0, 2, 3)])
  }

  /** The message the ValueError for an unknown shape evidently means to
      carry, naming the shape. This corrected message is what the model
      raises; `ShapeErrorMessageAsWritten` is the source's literal text. */
  function ShapeErrorMessage(form: string): (msg: string)
    ensures |msg| >= |form| && msg[|msg| - |form|..] == form
  {
    "3D mesh not supported for shape " + form
  }

  /** The message as the source writes it: a plain string literal (no `f`
      prefix), so the placeholder is never filled in. */
  function ShapeErrorMessageAsWritten(form: string): (msg: string)
  {
    "3D mesh not supported for shape {self.form}"
  }

  /** As written, two different unknown names yield the same message. */
  lemma ShapeErrorMessageAsWrittenLosesName()
    ensures ShapeErrorMessageAsWritten("hexagon") == ShapeErrorMessageAsWritten("cuboid")
  {
  }

  /** The corrected message tells any two unknown names apart. */
  lemma ShapeErrorMessageNamesShape(f: string, g: string)
    requires f != g
    ensures ShapeErrorMessage(f) != ShapeErrorMessage(g)
  {
  }

  /** `Shape.create_3D_mesh`. */
  function Create3DMesh(shape: Shape, lib: Creation): (r: Result<Mesh>)
    ensures r.Err? <==> shape.form !in SupportedForms
    ensures r.Err? ==> r.error == ValueError(ShapeErrorMessage(shape.form))
    ensures shape.form == "square" ==> r == Ok(SquareMesh(shape.size))
    ensures shape.form == "triangle" ==> r == Ok(TriangleMesh(shape.size))
    ensures shape.form == "pyramid" ==> r == Ok(PyramidMesh(shape.size))
  {
    var s := shape.size;
    var f := shape.form;
    if f == "circle" then Ok(lib.cylinder(s, 0.0, CircleSections))
    else if f == "square" then Ok(SquareMesh(s))
    else if f == "triangle" then Ok(TriangleMesh(s))
    else if f == "sphere" then Ok(lib.icosphere(s, SphereSubdivisions))
    else if f == "cube" then Ok(lib.box(s, s, s))
    else if f == "pyramid" then Ok(PyramidMesh(s))
    else Err(ValueError(ShapeErrorMessage(f)))
  }

  /** Every mesh the factory returns satisfies the index-bound invariant,
      provided trimesh's own constructors do. */
  lemma Create3DMeshWellFormed(shape: Shape, lib: Creation)
    requires CreationWellFormed(lib)
    ensures Create3DMesh(shape, lib).Ok? ==> WellFormed(Create3DMesh(shape, lib).value)
  {
  }

  /** The library shapes are exactly trimesh's constructors with the source's arguments. */
  lemma Create3DMeshDelegates(shape: Shape, lib: Creation)
    ensures shape.form == "circle" ==> Create3DMesh(shape, lib) == Ok(lib.cylinder(shape.size, 0.0, 50))
    ensures shape.form == "sphere" ==> Create3DMesh(shape, lib) == Ok(lib.icosphere(shape.size, 3))
    ensures shape.form == "cube" ==> Create3DMesh(shape, lib) == Ok(lib.box(shape.size, shape.size, shape.size))
  {
  }
}
