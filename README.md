# GeoMesh-Lab geometry engine in Dafny

This project models the geometry engine of GeoMesh-Lab (`shape.py`). The engine has three parts:

- **The mesh factory.** `Shape.create_3D_mesh` builds one triangle mesh for a shape name and a size. Square, triangle and pyramid are literal vertex and face lists scaled by the size. Circle, sphere and cube are delegated to `trimesh.creation`. Any other name raises `ValueError`.
- **The placement engine.** The body of `create_mesh` turns a formation name (grid, radial, spiral or sphere) and its numeric arguments into an ordered sequence of translation offsets.
- **Scene aggregation.** For every offset, in order, `create_mesh` builds a fresh mesh, translates it by the offset and appends it to the scene.

Modules, one file each:

- `Results` (`results.dfy`): the errors the core raises, carried in a `Result` instead of a Python exception.
- `Geometry` (`geometry.dfy`): `Vec3`, `Face` and `Mesh` values, the index-bound invariant `WellFormed`, and `Translate`, which models `apply_translation`.
- `Externals` (`externals.dfy`): `np.pi`, `np.cos`, `np.sin` and `np.sqrt`, and the three `trimesh.creation` constructors. They are record fields passed in as parameters, so the model assumes nothing about them. A lemma that needs a fact about them (cos² + sin² = 1, or that the library builds well-formed meshes) states it in its own `requires`.
- `Shapes` (`shapes.dfy`): `create_3D_mesh` as a pure function over a `Shape` value.
- `Formations` (`formations.dfy`): each formation's offsets as a pure function, with the lemmas about counts, bounds and order.
- `Scenes` (`scenes.dfy`): two views of `create_mesh`.
  - `Generate` is the specification function.
  - `CreateMesh` is a method that runs the source's own loops. These are the three nested grid loops after the `+= 1` count adjustments, plus the radial, spiral and sphere index loops. It builds a fresh mesh per iteration and appends it to a sequence. Its contract proves it equal to `Generate`.

Scalars are `real`, not floats. Python's `int(x)` truncates toward zero (`Trunc`). `range(n)` runs zero times for a negative `n` (`Range`).

Where the code's behaviour is easy to misread, the model follows the code:

- **Sphere formation, `count == 1`.** The code raises `ZeroDivisionError` at `(2.0 * i) / (count - 1)`. With `count <= 0` the sphere formation places nothing and raises nothing.
- **Unknown shape name.** Its error only happens inside the placement loop. When a formation has no placements (for example `count == 0`), an unknown shape yields an empty scene, not an error.
- **Radial formation, negative count.** `numpy.linspace` raises, modelled as `LinspaceNegativeCount`.
- **Grid with `spacing + shape_size == 0`.** The grid formation then divides by zero.

## Model

| member | source | states |
|---|---|---|
| Geometry.Translate | shape.py:97 | Translation law: vertex j of the result is vertex j of the mesh plus the offset; the vertex count and the faces are unchanged |
| Geometry.TranslatePreservesWellFormed | shape.py:97 | Translating keeps every face index below the vertex count |
| Geometry.TranslateRoundTrip | shape.py:97 | Translating by an offset and then by its negation gives back the original mesh |
| Geometry.TranslateCompose | shape.py:97 | Two successive translations equal one translation by the summed offset |
| Geometry.TranslateByOrigin | shape.py:129 | Translating by the origin (the first spiral offset) leaves the mesh unchanged |
| Shapes.SquareMesh | shape.py:18-24 | 4 vertices in the order (-s,-s,0), (s,-s,0), (s,s,0), (-s,s,0), pairwise distinct for s ≠ 0, so vertices 0 and 2 are opposite corners; faces [0,1,2] and [0,2,3] split the quad along that diagonal; every index below 4 |
| Shapes.TriangleMesh | shape.py:26-32 | 3 vertices: apex (0, s, 0), base corners (s, -s, 0) and (-s, -s, 0); the single face [0,1,2]; indices below 3 |
| Shapes.PyramidMesh | shape.py:42-50 | 5 vertices, the first four being the square's corners and the apex (0, 0, s) at index 4; 6 faces: four side faces (i, i+1 mod 4, 4), then the square's two faces; every index below 5 |
| Shapes.Create3DMesh | shape.py:10-55 | Fails exactly for names outside the six supported ones, with a ValueError (carrying the corrected message of the Findings); square, triangle and pyramid give the literal meshes scaled by the size |
| Shapes.Create3DMeshDelegates | shape.py:14-40 | Circle is cylinder(s, height 0, 50 sections), sphere is icosphere(s, subdivisions 3), cube is box(s, s, s) |
| Shapes.Create3DMeshWellFormed | shape.py:14-50 | Every mesh the factory returns satisfies the index-bound invariant, given that trimesh's constructors do |
| Shapes.ShapeErrorMessage | shape.py:53 | The corrected message ends with the rejected shape name |
| Shapes.ShapeErrorMessageAsWrittenLosesName | shape.py:53 | As written, two different unknown names ("hexagon", "cuboid") produce the same message |
| Shapes.ShapeErrorMessageNamesShape | shape.py:53 | The corrected message differs for any two different shape names |
| Formations.Trunc | shape.py:78-80 | `int(x)` truncates toward zero: within 1 of x, never above x for x ≥ 0, never below x for x < 0 |
| Formations.AxisCount | shape.py:78-89 | The count along one axis is the truncated quotient `int(extent / unit)` or one more, and it is one more exactly when the next shape's start, count·unit − spacing, is within the extent |
| Formations.AxisCountIsFloorPlusOne | shape.py:77-89 | With spacing ≥ 0, unit > 0 and extent ≥ 0, the "one more shape" guard always holds, so an axis count is floor(extent/unit) + 1; the last shape starts within the extent and one more would start beyond it |
| Formations.GridPlaneLength | shape.py:92-93 | For one width index, the length and height loops place lengths × heights offsets |
| Formations.GridBlockLength | shape.py:91-93 | The three nested loops place widths × lengths × heights offsets |
| Formations.GridPlaneAt | shape.py:92-97 | Within one width index, offset (u, v, w)·unit sits at position v·H + w |
| Formations.GridBlockAt | shape.py:91-97 | Offset (u, v, w)·unit sits at position u·(L·H) + v·H + w of the W·L·H offsets: width outermost, then length, then height; with `Scenes.GenerateTranslationLaw` this fixes the order of the grid scene |
| Formations.GridColumnSnoc | shape.py:93-97 | One more step of the height loop appends the offset (u, v, w)·unit |
| Formations.GridOffsets | shape.py:75-98 | The grid formation fails, with a division by zero, exactly when spacing + shape_size is 0 |
| Formations.GridOffsetsIsFullBlock | shape.py:77-93 | With spacing ≥ 0, unit > 0 and non-negative extents, the grid is the full block of floor(f2/unit)+1 widths × floor(f1/unit)+1 lengths × floor(f3/unit)+1 heights |
| Formations.DefaultGridHas343 | shape.py:57-98 | With the default arguments (extents 10, spacing 0.5, size 1.0), unit 1.5 gives 7 shapes per axis and 343 placements |
| Formations.RadialOffsets | shape.py:100-113 | Fails exactly for a negative count; otherwise gives exactly `count` offsets, offset i being (f_size1/2 · cos a_i, f_size1/2 · sin a_i, 0) for the linspace angle a_i = i·2π/count |
| Formations.RadialOnCircle | shape.py:102-112 | When cos² + sin² = 1, offset i is at angle i·2π/count on the circle of radius f_size1/2 around the vertical axis |
| Formations.RadialAnglesBelowFullTurn | shape.py:103 | For pi > 0 the angles start at 0, strictly increase with the index and stay below 2π: the endpoint is excluded |
| Formations.RadialStartsOnXAxis | shape.py:102-112 | When cos 0 = 1 and sin 0 = 0, the first radial offset is (f_size1/2, 0, 0) |
| Formations.SpiralOffsets | shape.py:116-130 | Exactly `count` offsets (none for count ≤ 0); offset i has height height_step·i |
| Formations.SpiralStartsAtOrigin | shape.py:118-129 | The first spiral offset is the origin, and consecutive heights differ by height_step |
| Formations.SpiralRadius | shape.py:120-125 | Offset i is (r_step·i · cos(θ_i), r_step·i · sin(θ_i)) with θ_i = theta_step·i handed to cos and sin as radians; when cos² + sin² = 1 it lies at distance r_step·i from the vertical axis |
| Formations.SphereOffsets | shape.py:132-152 | Fails with a division by zero exactly when count is 1; otherwise gives `count` offsets (none for count ≤ 0), offset i being the point of index i (y = 1 − 2i/(count−1), golden-angle θ = φ·i) scaled by r = sqrt(1 − y²) |
| Formations.SphereYDescends | shape.py:139-141 | For count ≥ 2, y goes from 1 at i = 0 to -1 at i = count-1, strictly decreasing, so 1 - y² is never negative |
| Formations.SphereOffsetDistance | shape.py:139-147 | When cos² + sin² = 1 and sqrt squares back, offset i is at squared distance 1 − y² from the centre, not 1: the extra `* r` keeps only the points with y = 0 on the unit sphere |
| Formations.SpherePolesCollapseToOrigin | shape.py:139-147 | When sqrt 0 = 0, the extra `* r` scaling sends the first and the last sphere offsets to the origin, so the points are not on a sphere |
| Formations.FormationErrorMessage | shape.py:155 | The corrected message ends with the rejected formation name |
| Formations.FormationErrorMessageAsWrittenLosesName | shape.py:155 | As written, two different unknown formations ("cuboid", "line") produce the same message |
| Formations.FormationErrorMessageNamesFormation | shape.py:155 | The corrected message differs for any two different formation names |
| Formations.Placements | shape.py:75-155 | Dispatch on the formation name: each of the four names selects its own placement; any other name is a ValueError (carrying the corrected message of the Findings) |
| Scenes.Generate | shape.py:57-157 | What `create_mesh` returns: a placement error is returned as is, whatever the shape; with a successful placement and a supported shape the result is the scene of the fresh mesh translated by each offset in order; a scene has one mesh per offset; a non-empty scene means the shape was built |
| Scenes.PlaceAll | shape.py:95-98 | Scene i is the fresh mesh translated by offset i, and the scene has one mesh per offset |
| Scenes.PlaceAllSnoc | shape.py:98 | Appending one placement appends exactly one translated mesh at the end (append-only, in placement order) |
| Scenes.Assemble | shape.py:91-155 | Placement errors come first; no placement gives an empty scene; otherwise a failed mesh build is the error; when both succeed the result is the built mesh placed at every offset in order; a scene has as many meshes as offsets |
| Scenes.GenerateTranslationLaw | shape.py:95-152 | In a produced scene, mesh i has the fresh mesh's faces and vertices, each moved by offset i; the scene length equals the number of offsets |
| Scenes.GenerateUnknownFormation | shape.py:154-155 | An unknown formation name yields the ValueError (corrected message), whatever the shape, and no scene |
| Scenes.GenerateUnknownShape | shape.py:52-53 | An unknown shape yields the ValueError (corrected message) as soon as one placement exists; with none it yields an empty scene |
| Scenes.GenerateWellFormed | shape.py:95-98 | Every mesh of a produced scene satisfies the index-bound invariant, given that trimesh's constructors do |
| Scenes.CreateMesh | shape.py:57-157 | `create_mesh` with its loops returns exactly the specified scene or error |
| Scenes.GridScene | shape.py:75-98 | The grid branch yields exactly the grid specification assembled with the fresh mesh: the three axis counts, and `ZeroDivisionError` when spacing + size is zero |
| Scenes.GridLoops | shape.py:91-98 | The width, length and height loops append, in order, one translated fresh mesh per block cell; an unknown shape fails at the first cell |
| Scenes.RadialScene | shape.py:100-113 | The linspace, cos and sin vectors and the zip loop give exactly the radial scene |
| Scenes.SpiralScene | shape.py:116-130 | The index loop gives exactly the spiral scene |
| Scenes.SphereScene | shape.py:132-152 | The index loop gives exactly the sphere scene, failing at the first division when count is 1 |

## Left out

- app.py (Streamlit input widgets and Plotly rendering) is not part of this model. Its "cuboid" formation option reaches the unknown-formation error, which is modelled.
- The meshes built by `trimesh.creation.cylinder`, `icosphere` and `box` are left out: foreign code whose contents are not visible. They are opaque parameters, assumed well-formed only where a lemma says so. The model does not state their vertex or face counts.
- The numeric values of `np.cos`, `np.sin`, `np.sqrt` and `np.pi` are left out, and so is the golden angle built from them: these are floating-point transcendentals. They are opaque parameters.
- Floating-point rounding, NaN and infinity are left out. Scalars are exact reals, so, for example, the grid guard is compared exactly.
- `apply_translation` updates the trimesh object in place. The model returns a translated mesh value instead. Each placement builds its own fresh mesh, so no aliasing between scene entries exists to be lost.
- The internals of `trimesh.Scene` are left out: geometry naming and its dictionary storage. The scene is an append-only sequence in placement order.
- Python type errors are left out, for example a non-integer `count` passed to `range`.
- Shapes.Create3DMesh: an unknown shape raises the ValueError with the corrected message `ShapeErrorMessage` (it names the shape). The code at shape.py:53 raises the literal "{self.form}" text; `ShapeErrorMessageAsWritten` models that literal. See "## Findings".
- Shapes.Create3DMesh: `trimesh.Trimesh(vertices=…, faces=…)` at shape.py:24, 32 and 50 merges coincident vertices by default (`process=True`). The model stores the literal lists unchanged. That is exact when the vertices are distinct, which holds for size s ≠ 0 (see `SquareMesh`). For s = 0 the library would collapse the square to one vertex; the model keeps four.
- Formations.Placements: an unknown formation raises the ValueError with the corrected message `FormationErrorMessage`. The code at shape.py:155 raises the literal "{formation}" text; `FormationErrorMessageAsWritten` models that literal. See "## Findings".
- Scenes.GenerateUnknownFormation: states the corrected message, as `Formations.Placements` raises it, not the literal text of shape.py:155.
- Scenes.GenerateUnknownShape: states the corrected message, as `Shapes.Create3DMesh` raises it, not the literal text of shape.py:53.
- Formations.SphereOffsets: no claim that the points lie on a sphere, because the code scales each point by its own local radius. SpherePolesCollapseToOrigin and SphereOffsetDistance record the consequence.

## Findings

| source | as written | input that shows it | evidently intended | confidence | as-written member | corrected member |
|---|---|---|---|---|---|---|
| shape.py:53 | The ValueError message is a plain string with no `f` prefix, so `{self.form}` is printed literally | shape names "hexagon" and "cuboid" give the same message | an f-string that names the rejected shape | high; not executed | Shapes.ShapeErrorMessageAsWrittenLosesName | Shapes.ShapeErrorMessageNamesShape |
| shape.py:155 | The ValueError message is a plain string, so `{formation}` is printed literally (with an `f` prefix it would name an undefined variable) | formation names "cuboid" and "line" give the same message | a message that names `formation_name` | high; not executed | Formations.FormationErrorMessageAsWrittenLosesName | Formations.FormationErrorMessageNamesFormation |
