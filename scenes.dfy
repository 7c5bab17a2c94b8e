/** Scene aggregation in `create_mesh`: for every placement offset, in
    order, build a fresh mesh, translate it and append it to the scene.
    The scene is an append-only sequence of meshes. */
module Scenes {
  import opened Results
  import opened Geometry
  import opened Externals
  import opened Shapes
  import opened Formations

  /** The fresh mesh `m` placed at each offset, in placement order. */
  function PlaceAll(m: Mesh, offsets: seq<Vec3>): (scene: seq<Mesh>)
    ensures |scene| == |offsets|
    ensures forall i :: 0 <= i < |offsets| ==> scene[i] == Translate(m, offsets[i])
  {
    seq(|offsets|, i requires 0 <= i < |offsets| => Translate(m, offsets[i]))
  }

  /** Appending one more placement appends one more translated mesh. */
  lemma PlaceAllSnoc(m: Mesh, offsets: seq<Vec3>, o: Vec3)
    ensures PlaceAll(m, offsets + [o]) == PlaceAll(m, offsets) + [Translate(m, o)]
  {
    assert PlaceAll(m, offsets + [o])[|offsets|] == Translate(m, o);
  }

  /** Combines the outcome of the mesh factory with the outcome of the
      placement: a placement error comes first; no placement means no mesh
      is ever built, so an unknown shape goes unnoticed; otherwise the
      factory's error, or the placed meshes. */
  function Assemble(built: Result<Mesh>, placed: Result<seq<Vec3>>): (r: Result<seq<Mesh>>)
    ensures placed.Err? ==> r == Err(placed.error)
    ensures placed.Ok? && placed.value == [] ==> r == Ok([])
    ensures placed.Ok? && placed.value != [] && built.Err? ==> r == Err(built.error)
    ensures r.Ok? ==> placed.Ok? && |r.value| == |placed.value|
    ensures placed.Ok? && built.Ok? ==> r == Ok(PlaceAll(built.value, placed.value))
  {
    match placed
    case Err(e) => Err(e)
    case Ok(offsets) =>
      if offsets == [] then Ok([])
      else
        match built
        case Err(e) => Err(e)
        case Ok(m) => Ok(PlaceAll(m, offsets))
  }

  /** What `create_mesh` returns. */
  function Generate(shapeName: string, formation: string, p: Params, lib: Creation, num: Numerics): (r: Result<seq<Mesh>>)
    ensures Placements(formation, p, num).Err? ==> r == Err(Placements(formation, p, num).error)
    ensures r.Ok? ==> Placements(formation, p, num).Ok? && |r.value| == |Placements(formation, p, num).value|
    ensures r.Ok? && r.value != [] ==> Create3DMesh(Shape(shapeName, p.shapeSize), lib).Ok?
    ensures Placements(formation, p, num).Ok? && shapeName in SupportedForms ==>
      r == Ok(PlaceAll(Create3DMesh(Shape(shapeName, p.shapeSize), lib).value, Placements(formation, p, num).value))
  {
    Assemble(Create3DMesh(Shape(shapeName, p.shapeSize), lib), Placements(formation, p, num))
  }

  /** Translation law of the scene: mesh i is the freshly built mesh with
      every vertex moved by offset i and the faces unchanged. */
  lemma GenerateTranslationLaw(shapeName: string, formation: string, p: Params, lib: Creation, num: Numerics, i: int, j: int)
    requires Generate(shapeName, formation, p, lib, num).Ok?
    requires 0 <= i < |Generate(shapeName, formation, p, lib, num).value|
    ensures var scene := Generate(shapeName, formation, p, lib, num).value;
            var offsets := Placements(formation, p, num).value;
            var built := Create3DMesh(Shape(shapeName, p.shapeSize), lib).value;
            && Placements(formation, p, num).Ok? && Create3DMesh(Shape(shapeName, p.shapeSize), lib).Ok?
            && |scene| == |offsets| && scene[i].faces == built.faces
            && |scene[i].vertices| == |built.vertices|
            && (0 <= j < |built.vertices| ==> scene[i].vertices[j] == Plus(built.vertices[j], offsets[i]))
  {
  }

  /** An unknown formation name is a ValueError (with the corrected
      message), whatever the shape. */
  lemma GenerateUnknownFormation(shapeName: string, formation: string, p: Params, lib: Creation, num: Numerics)
    requires formation !in FormationNames
    ensures Generate(shapeName, formation, p, lib, num) == Err(ValueError(FormationErrorMessage(formation)))
  {
  }

  /** An unknown shape name is a ValueError (with the corrected message) as
      soon as one shape is to be placed; with no placement at all the scene
      is empty. */
  lemma GenerateUnknownShape(shapeName: string, formation: string, p: Params, lib: Creation, num: Numerics)
    requires shapeName !in SupportedForms && Placements(formation, p, num).Ok?
    ensures Placements(formation, p, num).value != [] ==>
              Generate(shapeName, formation, p, lib, num) == Err(ValueError(ShapeErrorMessage(shapeName)))
    ensures Placements(formation, p, num).value == [] ==> Generate(shapeName, formation, p, lib, num) == Ok([])
  {
  }

  /** Every mesh of a scene satisfies the index-bound invariant. */
  lemma GenerateWellFormed(shapeName: string, formation: string, p: Params, lib: Creation, num: Numerics, i: int)
    requires CreationWellFormed(lib)
    requires Generate(shapeName, formation, p, lib, num).Ok?
    requires 0 <= i < |Generate(shapeName, formation, p, lib, num).value|
    ensures WellFormed(Generate(shapeName, formation, p, lib, num).value[i])
  {
    var shape := Shape(shapeName, p.shapeSize);
    Create3DMeshWellFormed(shape, lib);
    TranslatePreservesWellFormed(Create3DMesh(shape, lib).value, Placements(formation, p, num).value[i]);
  }

  // ------------------------------------------------------------ the loops

  /** `create_mesh`: dispatch on the formation name, each branch running
      the source's loop. */
  method CreateMesh(shapeName: string, formation: string, p: Params, lib: Creation, num: Numerics)
    returns (scene: Result<seq<Mesh>>)
    ensures scene == Generate(shapeName, formation, p, lib, num)
  {
    if formation == "grid" {
      scene := GridScene(shapeName, p, lib);
    } else if formation == "radial" {
      scene := RadialScene(shapeName, p, lib, num);
    } else if formation == "spiral" {
      scene := SpiralScene(shapeName, p, lib, num);
    } else if formation == "sphere" {
      scene := SphereScene(shapeName, p, lib, num);
    } else {
      scene := Err(ValueError(FormationErrorMessage(formation)));
    }
  }

  /** The grid branch: three axis counts, then the width, length, height loops. */
  method GridScene(shapeName: string, p: Params, lib: Creation) returns (scene: Result<seq<Mesh>>)
    ensures scene == Assemble(Create3DMesh(Shape(shapeName, p.shapeSize), lib), GridOffsets(p))
  {
    var unit := p.spacing + p.shapeSize;
    if unit == 0.0 {
      return Err(ZeroDivisionError);  // `f_size1 / unit` divides by zero
    }
    // each count is `int(f_size / unit)`, plus one when the last shape still fits
    var countLen := AxisCount(p.fSize1, unit, p.spacing);
    var countWidth := AxisCount(p.fSize2, unit, p.spacing);
    var countHeight := AxisCount(p.fSize3, unit, p.spacing);
    assert GridOffsets(p) == Ok(GridBlock(Range(countWidth), Range(countLen), Range(countHeight), unit));
    scene := GridLoops(shapeName, p.shapeSize, lib, unit, countWidth, countLen, countHeight);
  }

  /** The three nested loops of the grid branch: width outermost, then
      length, then height, one fresh translated mesh per cell. */
  method GridLoops(shapeName: string, size: real, lib: Creation, unit: real,
                   countWidth: int, countLen: int, countHeight: int) returns (scene: Result<seq<Mesh>>)
    ensures scene == Assemble(Create3DMesh(Shape(shapeName, size), lib),
                              Ok(GridBlock(Range(countWidth), Range(countLen), Range(countHeight), unit)))
  {
    ghost var built := Create3DMesh(Shape(shapeName, size), lib);
    ghost var W, L, H := Range(countWidth), Range(countLen), Range(countHeight);

    var meshes: seq<Mesh> := [];
    ghost var placed: seq<Vec3> := [];
    var u: nat := 0;
    while u < countWidth
      invariant u <= W
      invariant placed == GridBlock(u, L, H, unit) && |meshes| == |placed|
      invariant built.Ok? ==> meshes == PlaceAll(built.value, placed)
      invariant built.Err? ==> meshes == []
    {
      var v: nat := 0;
      while v < countLen
        invariant u < W && v <= L
        invariant placed == GridBlock(u, L, H, unit) + GridPlane(u, v, H, unit) && |meshes| == |placed|
        invariant built.Ok? ==> meshes == PlaceAll(built.value, placed)
        invariant built.Err? ==> meshes == []
      {
        var w: nat := 0;
        while w < countHeight
          invariant u < W && v < L && w <= H
          invariant placed == GridBlock(u, L, H, unit) + GridPlane(u, v, H, unit) + GridColumn(u, v, H, unit)[..w]
          invariant |meshes| == |placed|
          invariant built.Ok? ==> meshes == PlaceAll(built.value, placed)
          invariant built.Err? ==> meshes == []
        {
          var mesh := Create3DMesh(Shape(shapeName, size), lib);
          if mesh.Err? {
            GridBlockAt(W, L, H, unit, u, v, w);
            return Err(mesh.error);
          }
          var offset := Vec3(u as real * unit, v as real * unit, w as real * unit);
          PlaceAllSnoc(mesh.value, placed, offset);
          GridColumnSnoc(u, v, H, unit, w);
          meshes := meshes + [Translate(mesh.value, offset)];
          placed := placed + [offset];
          w := w + 1;
        }
        assert GridColumn(u, v, H, unit)[..w] == GridColumn(u, v, H, unit);
        v := v + 1;
      }
      u := u + 1;
    }
    return Ok(meshes);
  }

  /** The radial branch: linspace angles, their cosines and sines, then one
      placement per (x, y) pair at z = 0. */
  method RadialScene(shapeName: string, p: Params, lib: Creation, num: Numerics) returns (scene: Result<seq<Mesh>>)
    ensures scene == Assemble(Create3DMesh(Shape(shapeName, p.shapeSize), lib), RadialOffsets(p, num))
  {
    if p.count < 0 {
      return Err(LinspaceNegativeCount(p.count));  // numpy.linspace refuses the count
    }
    var count := p.count;
    var radius := p.fSize1 / 2.0;
    var angles := seq(count, i requires 0 <= i < count => RadialAngle(num, count, i));
    var xs := seq(count, i requires 0 <= i < count => radius * num.cos(angles[i]));
    var ys := seq(count, i requires 0 <= i < count => radius * num.sin(angles[i]));
    ghost var built := Create3DMesh(Shape(shapeName, p.shapeSize), lib);
    ghost var offsets := RadialOffsets(p, num).value;

    var meshes: seq<Mesh> := [];
    var i := 0;
    while i < count
      invariant 0 <= i <= count && |meshes| == i
      invariant built.Ok? ==> meshes == PlaceAll(built.value, offsets[..i])
      invariant built.Err? ==> i == 0
    {
      var mesh := Create3DMesh(Shape(shapeName, p.shapeSize), lib);
      if mesh.Err? {
        return Err(mesh.error);
      }
      var offset := Vec3(xs[i], ys[i], 0.0);
      assert offsets[i] == offset;
      assert offsets[..i + 1] == offsets[..i] + [offset];
      PlaceAllSnoc(mesh.value, offsets[..i], offset);
      meshes := meshes + [Translate(mesh.value, offset)];
      i := i + 1;
    }
    assert offsets[..i] == offsets;
    return Ok(meshes);
  }

  /** The spiral branch: radius, angle and height grow linearly with the index. */
  method SpiralScene(shapeName: string, p: Params, lib: Creation, num: Numerics) returns (scene: Result<seq<Mesh>>)
    ensures scene == Assemble(Create3DMesh(Shape(shapeName, p.shapeSize), lib), Ok(SpiralOffsets(p, num)))
  {
    ghost var built := Create3DMesh(Shape(shapeName, p.shapeSize), lib);
    ghost var offsets := SpiralOffsets(p, num);

    var meshes: seq<Mesh> := [];
    var i := 0;
    while i < p.count
      invariant 0 <= i <= |offsets| && |meshes| == i
      invariant built.Ok? ==> meshes == PlaceAll(built.value, offsets[..i])
      invariant built.Err? ==> i == 0
    {
      var offset := SpiralOffset(p, num, i);
      var mesh := Create3DMesh(Shape(shapeName, p.shapeSize), lib);
      if mesh.Err? {
        return Err(mesh.error);
      }
      assert offsets[..i + 1] == offsets[..i] + [offset];
      PlaceAllSnoc(mesh.value, offsets[..i], offset);
      meshes := meshes + [Translate(mesh.value, offset)];
      i := i + 1;
    }
    assert offsets[..i] == offsets;
    return Ok(meshes);
  }

  /** The sphere branch: golden-angle steps, y from 1 down to -1, the point
      scaled by its local radius; the first division fails when count is 1. */
  method SphereScene(shapeName: string, p: Params, lib: Creation, num: Numerics) returns (scene: Result<seq<Mesh>>)
    ensures scene == Assemble(Create3DMesh(Shape(shapeName, p.shapeSize), lib), SphereOffsets(p, num))
  {
    ghost var built := Create3DMesh(Shape(shapeName, p.shapeSize), lib);
    ghost var offsets := if p.count == 1 then [] else SphereOffsets(p, num).value;

    var meshes: seq<Mesh> := [];
    var i := 0;
    while i < p.count
      invariant 0 <= i && (p.count != 1 ==> i <= |offsets|) && |meshes| == i
      invariant p.count == 1 ==> i == 0
      invariant built.Ok? ==> meshes == PlaceAll(built.value, offsets[..i])
      invariant built.Err? ==> i == 0
    {
      if p.count - 1 == 0 {
        return Err(ZeroDivisionError);  // `(2.0 * i) / (count - 1)` divides by zero
      }
      var pos := SphereOffset(num, p.count, i);
      var mesh := Create3DMesh(Shape(shapeName, p.shapeSize), lib);
      if mesh.Err? {
        return Err(mesh.error);
      }
      assert offsets[..i + 1] == offsets[..i] + [pos];
      PlaceAllSnoc(mesh.value, offsets[..i], pos);
      meshes := meshes + [Translate(mesh.value, pos)];
      i := i + 1;
    }
    assert offsets[..i] == offsets;
    return Ok(meshes);
  }
}
