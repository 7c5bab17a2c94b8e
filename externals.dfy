/** What the core takes from numpy and trimesh without showing it: the
    transcendental functions and the three library mesh constructors. They
    are passed in as values, so nothing is assumed about them beyond what a
    lemma states in its own requires clause. */
module Externals {
  import opened Geometry

  /** `np.pi`, `np.cos`, `np.sin` and `np.sqrt`. */
  datatype Numerics = Numerics(pi: real, cos: real -> real, sin: real -> real, sqrt: real -> real)

  /** `trimesh.creation.cylinder(radius, height, sections)`,
      `trimesh.creation.icosphere(radius, subdivisions)` and
      `trimesh.creation.box(extents)`. */
  datatype Creation = Creation(
    cylinder: (real, real, int) -> Mesh,
    icosphere: (real, int) -> Mesh,
    box: (real, real, real) -> Mesh)

  /** The library builds well-formed meshes whatever it is given. */
  ghost predicate CreationWellFormed(lib: Creation) {
    && (forall r, h, n :: WellFormed(lib.cylinder(r, h, n)))
    && (forall r, n :: WellFormed(lib.icosphere(r, n)))
    && (forall a, b, c :: WellFormed(lib.box(a, b, c)))
  }

  /** cos² + sin² = 1 at every angle. */
  ghost predicate Pythagorean(num: Numerics) {
    forall t :: num.cos(t) * num.cos(t) + num.sin(t) * num.sin(t) == 1.0
  }
}
