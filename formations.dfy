/** The placement part of `create_mesh`: for each formation name, the
    ordered sequence of translation offsets its loop visits. */
module Formations {
  import opened Results
  import opened Geometry
  import opened Externals

  /** The numeric arguments of `create_mesh`. `fSize1` is the grid length
      (and the radial diameter), `fSize2` the grid width, `fSize3` its height. */
  datatype Params = Params(
    shapeSize: real, spacing: real,
    fSize1: real, fSize2: real, fSize3: real,
    count: int, rStep: real, thetaStep: real, heightStep: real)

  /** The default argument values of `create_mesh`. */
  const DefaultParams := Params(1.0, 0.5, 10.0, 10.0, 10.0, 10, 0.5, 25.0, 0.5)

  const FormationNames: set<string> := {"grid", "radial", "spiral", "sphere"}

  /** How many times `range(n)` iterates: none for a negative `n`. */
  function Range(n: int): nat {
    if n < 0 then 0 else n
  }

  /** Python's `int(x)` on a float: truncation toward zero. */
  function Trunc(x: real): (n: int)
    ensures 0.0 <= x ==> n as real <= x < n as real + 1.0
    ensures x < 0.0 ==> n as real - 1.0 < x <= n as real
  {
    if x >= 0.0 then x.Floor else -((-x).Floor)
  }

  // ---------------------------------------------------------------- grid

  function GridUnit(p: Params): real {
    p.spacing + p.shapeSize
  }

  /** Shapes along one axis: `int(extent / unit)`, plus one when
      `count * unit - spacing <= extent`. */
  function AxisCount(extent: real, unit: real, spacing: real): (n: int)
    requires unit != 0.0
    ensures Trunc(extent / unit) <= n <= Trunc(extent / unit) + 1
    ensures n == Trunc(extent / unit) + 1 <==> Trunc(extent / unit) as real * unit - spacing <= extent
  {
    var count := Trunc(extent / unit);
    if count as real * unit - spacing <= extent then count + 1 else count
  }

  /** With a non-negative spacing, a positive unit and a non-negative extent
      the "one more shape" guard always holds, so the count is
      floor(extent / unit) + 1: the last shape starts inside the extent and
      one more would start beyond it. */
  lemma AxisCountIsFloorPlusOne(extent: real, unit: real, spacing: real)
    requires 0.0 <= spacing && 0.0 < unit && 0.0 <= extent
    ensures AxisCount(extent, unit, spacing) == (extent / unit).Floor + 1
    ensures (AxisCount(extent, unit, spacing) - 1) as real * unit <= extent
    ensures extent < AxisCount(extent, unit, spacing) as real * unit
  {
    var q := extent / unit;
    var k := q.Floor;
    assert Trunc(q) == k;
    assert k as real <= q < k as real + 1.0;
    assert q * unit == extent;
    ScaledBounds(q, k as real, unit, extent);
    assert k as real * unit - spacing <= extent;
    var c := AxisCount(extent, unit, spacing);
    assert c == k + 1;
    assert (c - 1) as real == k as real && c as real == k as real + 1.0;
    assert (c - 1) as real * unit == k as real * unit;
    assert c as real * unit == (k as real + 1.0) * unit;
    assert extent < (k as real + 1.0) * unit;
  }

  /** From k <= q < k + 1 and q * unit == extent: k * unit <= extent < (k + 1) * unit. */
  lemma ScaledBounds(q: real, k: real, unit: real, extent: real)
    requires 0.0 < unit && k <= q < k + 1.0 && q * unit == extent
    ensures k * unit <= extent < (k + 1.0) * unit
  {
    MulMonotone(k, q, unit);
    var next := k + 1.0;
    MulStrict(q, next, unit);
    assert q * unit < next * unit;
    assert extent == q * unit;
    assert extent < next * unit;
  }

  lemma MulMonotone(a: real, b: real, c: real)
    requires a <= b && 0.0 < c
    ensures a * c <= b * c
  {
  }

  lemma MulStrict(a: real, b: real, c: real)
    requires a < b && 0.0 < c
    ensures a * c < b * c
  {
  }

  /** The innermost loop: offsets (u, v, w) * unit for w in [0, heights). */
  function GridColumn(u: nat, v: nat, heights: nat, unit: real): (col: seq<Vec3>)
  {
    seq(heights, w => Vec3(u as real * unit, v as real * unit, w as real * unit))
  }

  /** The middle loop for a fixed u: columns for v in [0, lengths), in order. */
  function GridPlane(u: nat, lengths: nat, heights: nat, unit: real): seq<Vec3>
  {
    if lengths == 0 then [] else GridPlane(u, lengths - 1, heights, unit) + GridColumn(u, lengths - 1, heights, unit)
  }

  /** The outer loop: planes for u in [0, widths), in order. */
  function GridBlock(widths: nat, lengths: nat, heights: nat, unit: real): seq<Vec3>
  {
    if widths == 0 then [] else GridBlock(widths - 1, lengths, heights, unit) + GridPlane(widths - 1, lengths, heights, unit)
  }

  lemma {:induction false} GridPlaneLength(u: nat, lengths: nat, heights: nat, unit: real)
    ensures |GridPlane(u, lengths, heights, unit)| == lengths * heights
  {
    if lengths > 0 {
      GridPlaneLength(u, lengths - 1, heights, unit);
      MulSucc(lengths - 1, heights);
    }
  }

  lemma {:induction false} GridBlockLength(widths: nat, lengths: nat, heights: nat, unit: real)
    ensures |GridBlock(widths, lengths, heights, unit)| == widths * (lengths * heights)
  {
    if widths > 0 {
      GridBlockLength(widths - 1, lengths, heights, unit);
      GridPlaneLength(widths - 1, lengths, heights, unit);
      MulSucc(widths - 1, lengths * heights);
    }
  }

  lemma MulSucc(a: nat, b: nat)
    ensures (a + 1) * b == a * b + b
  {
  }

  /** The columns for v' < v come first in the plane, then column v. */
  lemma {:induction false} GridPlaneSplit(u: nat, lengths: nat, heights: nat, unit: real, v: nat, w: nat)
    requires v < lengths && w < heights
    ensures |GridPlane(u, v, heights, unit)| + w < |GridPlane(u, lengths, heights, unit)|
    ensures GridPlane(u, lengths, heights, unit)[|GridPlane(u, v, heights, unit)| + w]
            == Vec3(u as real * unit, v as real * unit, w as real * unit)
  {
    if v < lengths - 1 {
      GridPlaneSplit(u, lengths - 1, heights, unit, v, w);
    }
  }

  /** The planes for u' < u come first in the block, then plane u. */
  lemma {:induction false} GridBlockSplit(widths: nat, lengths: nat, heights: nat, unit: real, u: nat, k: nat)
    requires u < widths && k < |GridPlane(u, lengths, heights, unit)|
    ensures |GridBlock(u, lengths, heights, unit)| + k < |GridBlock(widths, lengths, heights, unit)|
    ensures GridBlock(widths, lengths, heights, unit)[|GridBlock(u, lengths, heights, unit)| + k]
            == GridPlane(u, lengths, heights, unit)[k]
  {
    if u < widths - 1 {
      GridBlockSplit(widths - 1, lengths, heights, unit, u, k);
    }
  }

  /** Column v of the plane holds (u, v, w) * unit at position v * H + w. */
  lemma GridPlaneAt(u: nat, lengths: nat, heights: nat, unit: real, v: nat, w: nat)
    requires v < lengths && w < heights
    ensures v * heights + w < lengths * heights && |GridPlane(u, lengths, heights, unit)| == lengths * heights
    ensures GridPlane(u, lengths, heights, unit)[v * heights + w] == Vec3(u as real * unit, v as real * unit, w as real * unit)
  {
    GridPlaneSplit(u, lengths, heights, unit, v, w);
    GridPlaneLength(u, v, heights, unit);
    GridPlaneLength(u, lengths, heights, unit);
  }

  /** Offset (u*unit, v*unit, w*unit) sits at position u*(L*H) + v*H + w: the
      block is in lexicographic order, width outermost, height innermost. */
  lemma GridBlockAt(widths: nat, lengths: nat, heights: nat, unit: real, u: nat, v: nat, w: nat)
    requires u < widths && v < lengths && w < heights
    ensures u * (lengths * heights) + v * heights + w < widths * (lengths * heights)
    ensures |GridBlock(widths, lengths, heights, unit)| == widths * (lengths * heights)
    ensures GridBlock(widths, lengths, heights, unit)[u * (lengths * heights) + v * heights + w]
            == Vec3(u as real * unit, v as real * unit, w as real * unit)
  {
    GridPlaneAt(u, lengths, heights, unit, v, w);
    GridBlockSplit(widths, lengths, heights, unit, u, v * heights + w);
    GridBlockLength(u, lengths, heights, unit);
    GridBlockLength(widths, lengths, heights, unit);
  }

  /** One more step of the innermost loop appends the next offset. */
  lemma GridColumnSnoc(u: nat, v: nat, heights: nat, unit: real, w: nat)
    requires w < heights
    ensures GridColumn(u, v, heights, unit)[..w + 1]
            == GridColumn(u, v, heights, unit)[..w] + [Vec3(u as real * unit, v as real * unit, w as real * unit)]
  {
    var col := GridColumn(u, v, heights, unit);
    assert col[w] == Vec3(u as real * unit, v as real * unit, w as real * unit);
    assert col[..w + 1] == col[..w] + [col[w]];
  }

  /** Grid placement. `unit == 0` is the ZeroDivisionError of `f_size1 / unit`. */
  function GridOffsets(p: Params): (r: Result<seq<Vec3>>)
    ensures r.Err? <==> GridUnit(p) == 0.0
    ensures r.Err? ==> r.error == ZeroDivisionError
  {
    var unit := GridUnit(p);
    if unit == 0.0 then Err(ZeroDivisionError)
    else
      var countLen := AxisCount(p.fSize1, unit, p.spacing);
      var countWidth := AxisCount(p.fSize2, unit, p.spacing);
      var countHeight := AxisCount(p.fSize3, unit, p.spacing);
      Ok(GridBlock(Range(countWidth), Range(countLen), Range(countHeight), unit))
  }

  /** With non-negative spacing and extents and a positive unit, the grid
      is the full block of floor(f2/unit)+1 widths by floor(f1/unit)+1
      lengths by floor(f3/unit)+1 heights. */
  lemma GridOffsetsIsFullBlock(p: Params)
    requires 0.0 <= p.spacing && 0.0 < GridUnit(p)
    requires 0.0 <= p.fSize1 && 0.0 <= p.fSize2 && 0.0 <= p.fSize3
    ensures 0 <= (p.fSize1 / GridUnit(p)).Floor && 0 <= (p.fSize2 / GridUnit(p)).Floor && 0 <= (p.fSize3 / GridUnit(p)).Floor
    ensures GridOffsets(p) == Ok(GridBlock((p.fSize2 / GridUnit(p)).Floor + 1,
                                           (p.fSize1 / GridUnit(p)).Floor + 1,
                                           (p.fSize3 / GridUnit(p)).Floor + 1, GridUnit(p)))
  {
    var unit := GridUnit(p);
    AxisCountIsFloorPlusOne(p.fSize1, unit, p.spacing);
    AxisCountIsFloorPlusOne(p.fSize2, unit, p.spacing);
    AxisCountIsFloorPlusOne(p.fSize3, unit, p.spacing);
  }

  /** The default arguments (extents 10, spacing 0.5, size 1) give a unit of
      1.5, seven shapes per axis and 343 placements. */
  lemma DefaultGridHas343()
    ensures GridOffsets(DefaultParams).Ok? && |GridOffsets(DefaultParams).value| == 343
  {
    var p := DefaultParams;
    assert GridUnit(p) == 1.5;
    assert (10.0 / 1.5).Floor == 6 by {
      assert 6.0 <= 10.0 / 1.5 < 7.0;
    }
    GridOffsetsIsFullBlock(p);
    GridBlockLength(7, 7, 7, 1.5);
  }

  // -------------------------------------------------------------- radial

  /** `np.linspace(0, 2*pi, count, endpoint=False)[i]`. */
  function RadialAngle(num: Numerics, count: int, i: int): real
    requires count > 0
  {
    i as real * (2.0 * num.pi / count as real)
  }

  function RadialOffset(num: Numerics, diameter: real, count: int, i: int): Vec3
    requires count > 0
  {
    var radius := diameter / 2.0;
    var angle := RadialAngle(num, count, i);
    Vec3(radius * num.cos(angle), radius * num.sin(angle), 0.0)
  }

  /** Radial placement: `count` offsets on a circle of radius diameter / 2
      in the z = 0 plane; numpy refuses a negative count. */
  function RadialOffsets(p: Params, num: Numerics): (r: Result<seq<Vec3>>)
    ensures r.Err? <==> p.count < 0
    ensures r.Err? ==> r.error == LinspaceNegativeCount(p.count)
    ensures r.Ok? ==> |r.value| == p.count
    ensures r.Ok? ==> forall i :: 0 <= i < |r.value| ==>
      && r.value[i].x == (p.fSize1 / 2.0) * num.cos(RadialAngle(num, p.count, i))
      && r.value[i].y == (p.fSize1 / 2.0) * num.sin(RadialAngle(num, p.count, i))
      && r.value[i].z == 0.0
  {
    if p.count < 0 then Err(LinspaceNegativeCount(p.count))
    else Ok(seq(p.count, i requires 0 <= i < p.count => RadialOffset(num, p.fSize1, p.count, i)))
  }

  /** The angles start at 0, strictly increase with the index and stay
      below 2π: the endpoint is excluded, so no two offsets coincide at the seam. */
  lemma RadialAnglesBelowFullTurn(num: Numerics, count: int, i: int, j: int)
    requires 0.0 < num.pi && 0 <= i < j < count
    ensures RadialAngle(num, count, 0) == 0.0
    ensures 0.0 <= RadialAngle(num, count, i) < RadialAngle(num, count, j) < 2.0 * num.pi
  {
    var step := 2.0 * num.pi / count as real;
    assert step > 0.0;
    MulStrict(i as real, j as real, step);
    MulStrict(j as real, count as real, step);
    assert count as real * step == 2.0 * num.pi;
  }

  /** The first radial offset is (diameter / 2, 0, 0). */
  lemma RadialStartsOnXAxis(p: Params, num: Numerics)
    requires 0 < p.count && num.cos(0.0) == 1.0 && num.sin(0.0) == 0.0
    ensures RadialOffsets(p, num).Ok? && RadialOffsets(p, num).value[0] == Vec3(p.fSize1 / 2.0, 0.0, 0.0)
  {
    assert RadialAngle(num, p.count, 0) == 0.0;
  }

  /** Offset i lies on the circle of radius diameter / 2 around the
      vertical axis, at angle RadialAngle(i). */
  lemma RadialOnCircle(p: Params, num: Numerics, i: int)
    requires Pythagorean(num) && 0 <= i < p.count
    ensures RadialOffsets(p, num).Ok? && i < |RadialOffsets(p, num).value|
    ensures var o := RadialOffsets(p, num).value[i];
            var radius := p.fSize1 / 2.0;
            && o.x == radius * num.cos(RadialAngle(num, p.count, i))
            && o.y == radius * num.sin(RadialAngle(num, p.count, i))
            && o.x * o.x + o.y * o.y == radius * radius
  {
    var radius := p.fSize1 / 2.0;
    var c, s := num.cos(RadialAngle(num, p.count, i)), num.sin(RadialAngle(num, p.count, i));
    assert c * c + s * s == 1.0;
    assert (radius * c) * (radius * c) + (radius * s) * (radius * s) == radius * radius * (c * c + s * s);
  }

  // -------------------------------------------------------------- spiral

  /** Offset i of the spiral: radius r_step*i, angle theta_step*i (used as
      radians as given), height height_step*i. */
  function SpiralOffset(p: Params, num: Numerics, i: int): Vec3 {
    var radius := p.rStep * i as real;
    var height := p.heightStep * i as real;
    Vec3(radius * num.cos(SpiralAngle(p, i)), radius * num.sin(SpiralAngle(p, i)), height)
  }

  /** `theta_step * i`, handed to cos and sin as radians. */
  function SpiralAngle(p: Params, i: int): real {
    p.thetaStep * i as real
  }

  function SpiralOffsets(p: Params, num: Numerics): (r: seq<Vec3>)
    ensures |r| == Range(p.count)
    ensures forall i :: 0 <= i < |r| ==> r[i].z == p.heightStep * i as real
  {
    seq(Range(p.count), i => SpiralOffset(p, num, i))
  }

  /** The spiral starts at the origin and climbs by height_step per shape. */
  lemma SpiralStartsAtOrigin(p: Params, num: Numerics)
    requires 0 < p.count
    ensures SpiralOffsets(p, num)[0] == Origin
    ensures forall i :: 0 < i < p.count ==>
      SpiralOffsets(p, num)[i].z - SpiralOffsets(p, num)[i - 1].z == p.heightStep
  {
    assert SpiralOffsets(p, num)[0] == SpiralOffset(p, num, 0);
  }

  /** Offset i lies at distance r_step*i from the vertical axis, at the
      angle theta_step*i handed to cos and sin as radians. */
  lemma SpiralRadius(p: Params, num: Numerics, i: int)
    requires Pythagorean(num) && 0 <= i < p.count
    ensures var o := SpiralOffsets(p, num)[i];
            && o.x == (p.rStep * i as real) * num.cos(SpiralAngle(p, i))
            && o.y == (p.rStep * i as real) * num.sin(SpiralAngle(p, i))
            && o.x * o.x + o.y * o.y == (p.rStep * i as real) * (p.rStep * i as real)
  {
    SpiralOffsetAt(p, num, i);
    var radius := p.rStep * i as real;
    var c, s := num.cos(SpiralAngle(p, i)), num.sin(SpiralAngle(p, i));
    assert c * c + s * s == 1.0;
    assert (radius * c) * (radius * c) + (radius * s) * (radius * s) == radius * radius * (c * c + s * s);
  }

  /** Offset i of the spiral sequence, spelled out. */
  lemma SpiralOffsetAt(p: Params, num: Numerics, i: int)
    requires 0 <= i < p.count
    ensures var o := SpiralOffsets(p, num)[i];
            && o.x == (p.rStep * i as real) * num.cos(SpiralAngle(p, i))
            && o.y == (p.rStep * i as real) * num.sin(SpiralAngle(p, i))
  {
    var o := SpiralOffset(p, num, i);
    assert SpiralOffsets(p, num)[i] == o;
    assert o.x == (p.rStep * i as real) * num.cos(SpiralAngle(p, i));
    assert o.y == (p.rStep * i as real) * num.sin(SpiralAngle(p, i));
  }

  // -------------------------------------------------------------- sphere

  /** `y = 1 - (2.0 * i) / (count - 1)`. */
  function SphereY(count: int, i: int): real
    requires count != 1
  {
    1.0 - (2.0 * i as real) / (count - 1) as real
  }

  /** Golden angle `pi * (3 - sqrt(5))`. */
  function GoldenAngle(num: Numerics): real {
    num.pi * (3.0 - num.sqrt(5.0))
  }

  /** Offset i of the sphere formation as written: the point
      (cos θ · r, y, sin θ · r) scaled once more by r = sqrt(1 - y²). */
  function SphereOffset(num: Numerics, count: int, i: int): Vec3
    requires count != 1
  {
    var y := SphereY(count, i);
    var r := SphereRadius(num, count, i);
    var x := num.cos(SphereAngle(num, i)) * r;
    var z := num.sin(SphereAngle(num, i)) * r;
    Vec3(x * r, y * r, z * r)
  }

  /** `r = np.sqrt(1 - y * y)`. */
  function SphereRadius(num: Numerics, count: int, i: int): real
    requires count != 1
  {
    num.sqrt(1.0 - SphereY(count, i) * SphereY(count, i))
  }

  /** `theta = phi * i`. */
  function SphereAngle(num: Numerics, i: int): real {
    GoldenAngle(num) * i as real
  }

  /** Sphere placement: `count == 1` divides by zero before any shape is
      placed; a count of zero or less places nothing. */
  function SphereOffsets(p: Params, num: Numerics): (r: Result<seq<Vec3>>)
    ensures r.Err? <==> p.count == 1
    ensures r.Err? ==> r.error == ZeroDivisionError
    ensures r.Ok? ==> |r.value| == Range(p.count)
    ensures r.Ok? ==> forall i :: 0 <= i < |r.value| ==> r.value[i] == SphereOffset(num, p.count, i)
  {
    if p.count == 1 then Err(ZeroDivisionError)
    else Ok(seq(Range(p.count), i => SphereOffset(num, p.count, i)))
  }

  /** For two or more shapes y runs from 1 down to -1, strictly decreasing,
      so 1 - y² is never negative. */
  lemma SphereYDescends(count: int, i: int, j: int)
    requires 2 <= count && 0 <= i < j < count
    ensures SphereY(count, 0) == 1.0 && SphereY(count, count - 1) == -1.0
    ensures SphereY(count, i) > SphereY(count, j)
    ensures -1.0 <= SphereY(count, j) && SphereY(count, i) <= 1.0
    ensures 0.0 <= 1.0 - SphereY(count, i) * SphereY(count, i)
  {
    var d := (count - 1) as real;
    DivStrict(2.0 * i as real, 2.0 * j as real, d);
    DivMonotone(2.0 * j as real, 2.0 * d, d);
    DivMonotone(0.0, 2.0 * i as real, d);
    var y := SphereY(count, i);
    assert -1.0 <= y <= 1.0;
    MulNonNegative(1.0 - y, 1.0 + y);
    assert 1.0 - y * y == (1.0 - y) * (1.0 + y);
  }

  lemma DivStrict(a: real, b: real, d: real)
    requires a < b && 0.0 < d
    ensures a / d < b / d
  {
    var qa, qb := a / d, b / d;
    if qb <= qa {
      MulMonotone(qb, qa, d);
      assert false;
    }
  }

  lemma DivMonotone(a: real, b: real, d: real)
    requires a <= b && 0.0 < d
    ensures a / d <= b / d
  {
  }

  lemma MulNonNegative(a: real, b: real)
    requires 0.0 <= a && 0.0 <= b
    ensures 0.0 <= a * b
  {
  }

  /** With r = sqrt(1 - y²), offset i is at squared distance 1 - y² = r²
      from the centre, not 1: the extra `* r` leaves every point off the
      unit sphere except where y = 0. */
  lemma SphereOffsetDistance(num: Numerics, count: int, i: int)
    requires Pythagorean(num) && 2 <= count && 0 <= i < count
    requires SphereRadius(num, count, i) * SphereRadius(num, count, i) == 1.0 - SphereY(count, i) * SphereY(count, i)
    ensures var o := SphereOffset(num, count, i);
            var y := SphereY(count, i);
            o.x * o.x + o.y * o.y + o.z * o.z == 1.0 - y * y
  {
    var y := SphereY(count, i);
    var r := SphereRadius(num, count, i);
    var c, s := num.cos(SphereAngle(num, i)), num.sin(SphereAngle(num, i));
    var o := SphereOffset(num, count, i);
    assert o == Vec3(c * r * r, y * r, s * r * r);
    assert c * c + s * s == 1.0;
    ScaledSquares(c, s, r, y);
    assert r * r * (r * r + y * y) == (1.0 - y * y) * 1.0;
  }

  lemma ScaledSquares(c: real, s: real, r: real, y: real)
    requires c * c + s * s == 1.0
    ensures (c * r * r) * (c * r * r) + (y * r) * (y * r) + (s * r * r) * (s * r * r) == r * r * (r * r + y * y)
  {
    assert (c * r * r) * (c * r * r) + (s * r * r) * (s * r * r) == (r * r) * (r * r) * (c * c + s * s);
  }

  /** As written, the two poles (i = 0 and i = count - 1) have r = 0 and
      are both scaled onto the origin: the points are not on a sphere. */
  lemma SpherePolesCollapseToOrigin(p: Params, num: Numerics)
    requires 2 <= p.count && num.sqrt(0.0) == 0.0
    ensures SphereOffsets(p, num).Ok?
    ensures SphereOffsets(p, num).value[0] == Origin
    ensures SphereOffsets(p, num).value[p.count - 1] == Origin
  {
    SphereYDescends(p.count, 0, p.count - 1);
  }

  // ------------------------------------------------------------ dispatch

  /** The message the ValueError for an unknown formation evidently means
      to carry, naming the formation. This corrected message is what the
      model raises; `FormationErrorMessageAsWritten` is the source's literal
      text. It is shaped like `Shapes.ShapeErrorMessage`, the other
      unknown-name message. */
  function FormationErrorMessage(name: string): (msg: string)
    ensures |msg| >= |name| && msg[|msg| - |name|..] == name
  {
    "3D mesh not supported for formation " + name
  }

  /** The message as the source writes it: a plain literal whose
      placeholder refers to no variable at all. */
  function FormationErrorMessageAsWritten(name: string): string {
    "3D mesh not supported for formation {formation}"
  }

  lemma FormationErrorMessageAsWrittenLosesName()
    ensures FormationErrorMessageAsWritten("cuboid") == FormationErrorMessageAsWritten("line")
  {
  }

  lemma FormationErrorMessageNamesFormation(f: string, g: string)
    requires f != g
    ensures FormationErrorMessage(f) != FormationErrorMessage(g)
  {
  }

  /** The placement dispatch of `create_mesh`. */
  function Placements(formation: string, p: Params, num: Numerics): (r: Result<seq<Vec3>>)
    ensures formation !in FormationNames ==> r == Err(ValueError(FormationErrorMessage(formation)))
    ensures formation == "grid" ==> r == GridOffsets(p)
    ensures formation == "radial" ==> r == RadialOffsets(p, num)
    ensures formation == "spiral" ==> r == Ok(SpiralOffsets(p, num))
    ensures formation == "sphere" ==> r == SphereOffsets(p, num)
  {
    if formation == "grid" then GridOffsets(p)
    else if formation == "radial" then RadialOffsets(p, num)
    else if formation == "spiral" then Ok(SpiralOffsets(p, num))
    else if formation == "sphere" then SphereOffsets(p, num)
    else Err(ValueError(FormationErrorMessage(formation)))
  }
}
