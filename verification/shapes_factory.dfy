/**
 * The geometry part of the shapes factory (src/view/ShapesFactory.ts):
 * the shape kinds, the shape records, the per-kind area formulas, the
 * polar-area approximation used for the irregular kind, and the record
 * that drawShape returns.  Drawing commands are not modelled; the Pixi
 * `Graphics` object is an opaque handle that carries a position.
 *
 * Numbers are reals.  The host's π and sine are not computed: they are
 * parameters of type MathEnv, known only to satisfy π > 0 and
 * -1 <= sin(x) <= 1.  Each `Math.random()` value is a RandomDraw in [0, 1).
 */
module ShapesFactory {
  import opened Wrappers

  /** A value of `Math.random()`. */
  type RandomDraw = u: real | 0.0 <= u < 1.0

  /** A sine-like function: any function bounded by -1 and 1. */
  type Sine = f: real -> real | forall x :: -1.0 <= f(x) <= 1.0 witness (x: real) => 0.0

  type Positive = r: real | r > 0.0 witness 1.0

  /** The host's `Math.PI` and `Math.sin`, with only their bounds known. */
  datatype MathEnv = MathEnv(pi: Positive, sin: Sine)

  /** The seven shape kinds; the source numbers them 0..6 in this order. */
  datatype ShapeKind = Triangle | Square | Pentagon | Hexagon | Circle | Ellipse | Random
  {
    function Code(): (n: int)
      ensures 0 <= n < 7
    {
      match this
      case Triangle => 0
      case Square => 1
      case Pentagon => 2
      case Hexagon => 3
      case Circle => 4
      case Ellipse => 5
      case Random => 6
    }
  }

  /** The enumeration member a number stands for, if any. */
  function KindOf(code: int): (k: Option<ShapeKind>)
    ensures k.Some? <==> 0 <= code < 7
    ensures k.Some? ==> k.value.Code() == code
  {
    if code == 0 then Some(Triangle)
    else if code == 1 then Some(Square)
    else if code == 2 then Some(Pentagon)
    else if code == 3 then Some(Hexagon)
    else if code == 4 then Some(Circle)
    else if code == 5 then Some(Ellipse)
    else if code == 6 then Some(Random)
    else None
  }

  lemma KindCodeRoundTrip(k: ShapeKind)
    ensures KindOf(k.Code()) == Some(k)
  {
  }

  datatype Point = Point(x: real, y: real)

  /**
   * The metadata record `TypeShape`.  `kind` keeps the enumeration's
   * number, as it is at run time: the source casts a number to ShapeKind
   * without checking it.
   */
  datatype TypeShape = TypeShape(id: int, kind: int, color: int, position: Point, size: real)

  /** The Pixi `Graphics` handle: compared by identity, its position mutable. */
  class Graphic {
    var x: real
    var y: real

    constructor (x: real, y: real)
      ensures this.x == x && this.y == y
    {
      this.x := x;
      this.y := y;
    }
  }

  /**
   * The record `ShapeData`.  Only `velocityY` is ever reassigned, so the
   * other fields are constants.
   */
  class ShapeData {
    const shape: Graphic
    const area: real
    const meta: TypeShape
    var velocityY: real

    constructor (shape: Graphic, area: real, meta: TypeShape)
      ensures this.shape == shape && this.area == area && this.meta == meta
      ensures velocityY == 0.0
    {
      this.shape := shape;
      this.area := area;
      this.meta := meta;
      velocityY := 0.0;
    }
  }

  /** The table `sidesMap`: Square, Circle and Ellipse have no entry. */
  const SIDES_MAP: map<ShapeKind, int> := map[Triangle := 3, Pentagon := 5, Hexagon := 6, Random := 5]

  /** The number of samples `approximatePolarArea` takes by default. */
  const POLAR_STEPS: nat := 100

  /** `sidesMap[kind]`, with 0 standing for a missing entry. */
  function Sides(kind: ShapeKind): (n: int)
    ensures kind in SIDES_MAP <==> n != 0
    ensures n != 0 ==> n == SIDES_MAP[kind]
  {
    if kind in SIDES_MAP then SIDES_MAP[kind] else 0
  }

  /**
   * `approximateRegularPolygonArea`: the area formula of a regular polygon
   * with the table's number of sides and radius size/2.
   */
  function RegularPolygonArea(m: MathEnv, kind: ShapeKind, size: real): real
  {
    var sides := Sides(kind);
    if sides == 0 then 0.0
    else
      var radius := size / 2.0;
      (sides as real * radius * radius * m.sin((2.0 * m.pi) / sides as real)) / 2.0
  }

  /** `calculateArea`: the area by kind; any number outside the enumeration gives 0. */
  function CalculateArea(m: MathEnv, kind: int, size: real): real
  {
    var s := size;
    match KindOf(kind)
    case Some(Circle) => m.pi * ((s / 2.0) * (s / 2.0))
    case Some(Ellipse) => m.pi * (s / 2.0) * (s / 3.0)
    case Some(Square) => s * s
    case Some(Triangle) | Some(Pentagon) | Some(Hexagon) | Some(Random) =>
      RegularPolygonArea(m, KindOf(kind).value, s)
    case None => 0.0
  }

  lemma ClosedFormAreas(m: MathEnv, size: real)
    ensures CalculateArea(m, Square.Code(), size) == size * size
    ensures CalculateArea(m, Circle.Code(), size) == m.pi * (size / 2.0) * (size / 2.0)
    ensures CalculateArea(m, Ellipse.Code(), size) == m.pi * (size / 2.0) * (size / 3.0)
    ensures CalculateArea(m, Square.Code(), size) >= 0.0
    ensures CalculateArea(m, Circle.Code(), size) >= 0.0
    ensures CalculateArea(m, Ellipse.Code(), size) >= 0.0
  {
    var h := size / 2.0;
    assert h * h >= 0.0;
    assert m.pi * (h * h) >= 0.0;
    assert (size / 2.0) * (size / 3.0) == size * size / 6.0;
    assert m.pi * ((size / 2.0) * (size / 3.0)) >= 0.0;
  }

  lemma PolygonAreas(m: MathEnv, size: real)
    ensures var r := size / 2.0;
      && CalculateArea(m, Triangle.Code(), size) == (3.0 * r * r * m.sin((2.0 * m.pi) / 3.0)) / 2.0
      && CalculateArea(m, Pentagon.Code(), size) == (5.0 * r * r * m.sin((2.0 * m.pi) / 5.0)) / 2.0
      && CalculateArea(m, Hexagon.Code(), size) == (6.0 * r * r * m.sin((2.0 * m.pi) / 6.0)) / 2.0
  {
  }

  /** The kinds without a `sidesMap` entry fall back to area 0 in the polygon formula. */
  lemma MissingSidesGiveZero(m: MathEnv, kind: ShapeKind, size: real)
    ensures kind !in SIDES_MAP <==> kind in {Square, Circle, Ellipse}
    ensures kind !in SIDES_MAP ==> RegularPolygonArea(m, kind, size) == 0.0
  {
  }

  lemma {:induction false} PolygonAreaBounds(m: MathEnv, kind: ShapeKind, size: real)
    ensures var bound := Sides(kind) as real * (size / 2.0) * (size / 2.0) / 2.0;
      -bound <= RegularPolygonArea(m, kind, size) <= bound
  {
    var sides := Sides(kind);
    if sides != 0 {
      var r := size / 2.0;
      var q := sides as real * r * r;
      assert q >= 0.0 by {
        assert r * r >= 0.0;
        assert sides > 0;
      }
      var s := m.sin((2.0 * m.pi) / sides as real);
      assert -q <= q * s <= q;
      assert RegularPolygonArea(m, kind, size) == q * s / 2.0;
      assert Sides(kind) as real * (size / 2.0) * (size / 2.0) == q;
    }
  }

  lemma UnknownKindHasNoArea(m: MathEnv, kind: int, size: real)
    ensures (kind < 0 || kind >= 7) ==> CalculateArea(m, kind, size) == 0.0
  {
  }

  /** The Random kind's bump count `3 + floor(u * 5)`. */
  function BumpCount(u: RandomDraw): (b: int)
    ensures 3 <= b <= 7
  {
    3 + (u * 5.0).Floor
  }

  // The polar approximation ----------------------------------------------

  /** `(Math.PI * 2) / steps`; zero steps never use it, so 0 stands in for Infinity. */
  function AngleStep(m: MathEnv, steps: nat): real
  {
    if steps == 0 then 0.0 else (m.pi * 2.0) / steps as real
  }

  /** x added n times, one addition at a time, as the source's loops accumulate. */
  function Repeated(n: nat, x: real): real
  {
    if n == 0 then 0.0 else Repeated(n - 1, x) + x
  }

  /** Adding x n times gives n times x. */
  lemma {:induction false} RepeatedIsProduct(n: nat, x: real)
    ensures Repeated(n, x) == n as real * x
  {
    if n > 0 {
      RepeatedIsProduct(n - 1, x);
    }
  }

  /** The blob's radius at angle theta. */
  function SampledRadius(m: MathEnv, radius: real, bumps: int, theta: real): real
  {
    radius * (1.0 + 0.3 * m.sin(bumps as real * theta))
  }

  /** The term that iteration i of the loop adds. */
  function SectorTerm(m: MathEnv, radius: real, bumps: int, angleStep: real, i: nat): real
  {
    var r1 := SampledRadius(m, radius, bumps, i as real * angleStep);
    var r2 := SampledRadius(m, radius, bumps, (i + 1) as real * angleStep);
    0.5 * (r1 * r1 + r2 * r2) * angleStep
  }

  /** The accumulator after n iterations: terms 0 .. n-1 added in order. */
  function SectorSum(m: MathEnv, radius: real, bumps: int, angleStep: real, n: nat): real
  {
    if n == 0 then 0.0
    else SectorSum(m, radius, bumps, angleStep, n - 1) + SectorTerm(m, radius, bumps, angleStep, n - 1)
  }

  /** What `approximatePolarArea(radius, bumps, steps)` returns: the sum, halved. */
  function PolarArea(m: MathEnv, radius: real, bumps: int, steps: nat): real
  {
    SectorSum(m, radius, bumps, AngleStep(m, steps), steps) / 2.0
  }

  lemma SampledRadiusBounds(m: MathEnv, radius: real, bumps: int, theta: real)
    requires radius >= 0.0
    ensures 0.7 * radius <= SampledRadius(m, radius, bumps, theta) <= 1.3 * radius
  {
    var s := m.sin(bumps as real * theta);
    assert -radius <= radius * s <= radius;
  }

  lemma SquareBetween(lo: real, x: real, hi: real)
    requires 0.0 <= lo <= x <= hi
    ensures lo * lo <= x * x <= hi * hi
  {
    assert lo * lo <= lo * x <= x * x;
    assert x * x <= x * hi <= hi * hi;
  }

  lemma SectorTermNonNegative(m: MathEnv, radius: real, bumps: int, angleStep: real, i: nat)
    requires angleStep >= 0.0
    ensures SectorTerm(m, radius, bumps, angleStep, i) >= 0.0
  {
    var r1 := SampledRadius(m, radius, bumps, i as real * angleStep);
    var r2 := SampledRadius(m, radius, bumps, (i + 1) as real * angleStep);
    assert r1 * r1 + r2 * r2 >= 0.0;
    assert 0.5 * (r1 * r1 + r2 * r2) * angleStep >= 0.0;
  }

  lemma SectorTermBounds(m: MathEnv, radius: real, bumps: int, angleStep: real, i: nat)
    requires radius >= 0.0 && angleStep >= 0.0
    ensures var unit := radius * radius * angleStep;
      0.49 * unit <= SectorTerm(m, radius, bumps, angleStep, i) <= 1.69 * unit
  {
    var r1 := SampledRadius(m, radius, bumps, i as real * angleStep);
    var r2 := SampledRadius(m, radius, bumps, (i + 1) as real * angleStep);
    SampledRadiusBounds(m, radius, bumps, i as real * angleStep);
    SampledRadiusBounds(m, radius, bumps, (i + 1) as real * angleStep);
    SquareSumBounds(radius, r1, r2);
    var sq := radius * radius;
    var half := 0.5 * angleStep;
    ScaleBetween(0.98 * sq, r1 * r1 + r2 * r2, 3.38 * sq, half);
    assert SectorTerm(m, radius, bumps, angleStep, i) == (r1 * r1 + r2 * r2) * half;
    assert 0.98 * sq * half == 0.49 * (sq * angleStep);
    assert 3.38 * sq * half == 1.69 * (sq * angleStep);
  }

  /** Two radii within 0.7 and 1.3 times `radius` have squares summing to 0.98 to 3.38 times its square. */
  lemma SquareSumBounds(radius: real, r1: real, r2: real)
    requires radius >= 0.0
    requires 0.7 * radius <= r1 <= 1.3 * radius && 0.7 * radius <= r2 <= 1.3 * radius
    ensures 0.98 * (radius * radius) <= r1 * r1 + r2 * r2 <= 3.38 * (radius * radius)
  {
    SquareBetween(0.7 * radius, r1, 1.3 * radius);
    SquareBetween(0.7 * radius, r2, 1.3 * radius);
    assert (0.7 * radius) * (0.7 * radius) == 0.49 * (radius * radius);
    assert (1.3 * radius) * (1.3 * radius) == 1.69 * (radius * radius);
  }

  /** Scaling by a non-negative factor keeps a value between its bounds. */
  lemma ScaleBetween(lo: real, x: real, hi: real, c: real)
    requires lo <= x <= hi && c >= 0.0
    ensures lo * c <= x * c <= hi * c
  {
    assert (x - lo) * c >= 0.0;
    assert (hi - x) * c >= 0.0;
  }

  lemma {:induction false} SectorSumNonNegative(m: MathEnv, radius: real, bumps: int, angleStep: real, n: nat)
    requires angleStep >= 0.0
    ensures SectorSum(m, radius, bumps, angleStep, n) >= 0.0
  {
    if n > 0 {
      SectorSumNonNegative(m, radius, bumps, angleStep, n - 1);
      SectorTermNonNegative(m, radius, bumps, angleStep, n - 1);
    }
  }

  lemma {:induction false} SectorSumBounds(m: MathEnv, radius: real, bumps: int, angleStep: real, n: nat)
    requires radius >= 0.0 && angleStep >= 0.0
    ensures var unit := radius * radius * angleStep;
      Repeated(n, 0.49 * unit) <= SectorSum(m, radius, bumps, angleStep, n) <= Repeated(n, 1.69 * unit)
  {
    if n > 0 {
      SectorSumBounds(m, radius, bumps, angleStep, n - 1);
      SectorTermBounds(m, radius, bumps, angleStep, n - 1);
    }
  }

  /**
   * The halved sum stays within the areas of the circles of radius
   * 0.7 * radius and 1.3 * radius, the blob's smallest and largest extent.
   */
  lemma PolarAreaBounds(m: MathEnv, radius: real, bumps: int, steps: nat)
    requires radius >= 0.0 && steps > 0
    ensures var disc := m.pi * radius * radius;
      0.49 * disc <= PolarArea(m, radius, bumps, steps) <= 1.69 * disc
  {
    var a := AngleStep(m, steps);
    assert steps as real * a == m.pi * 2.0;
    SectorSumBounds(m, radius, bumps, a, steps);
    var unit := radius * radius * a;
    FullTurn(steps, a, m.pi, radius);
    HalfBetween(SectorSum(m, radius, bumps, a, steps), Repeated(steps, 0.49 * unit), Repeated(steps, 1.69 * unit),
                m.pi * radius * radius);
  }

  /** A sum within 2·0.49·disc and 2·1.69·disc halves to within 0.49·disc and 1.69·disc. */
  lemma HalfBetween(sum: real, lo: real, hi: real, disc: real)
    requires lo <= sum <= hi
    requires lo == 2.0 * 0.49 * disc && hi == 2.0 * 1.69 * disc
    ensures 0.49 * disc <= sum / 2.0 <= 1.69 * disc
  {
  }

  /**
   * k sectors of angle a sweeping a full turn 2π, each of c·r²·a for c
   * 0.49 or 1.69, add up to twice c·π·r².
   */
  lemma FullTurn(k: nat, a: real, pi: real, r: real)
    requires k as real * a == pi * 2.0
    ensures Repeated(k, 0.49 * (r * r * a)) == 2.0 * 0.49 * (pi * r * r)
    ensures Repeated(k, 1.69 * (r * r * a)) == 2.0 * 1.69 * (pi * r * r)
  {
    RepeatedIsProduct(k, 0.49 * (r * r * a));
    RepeatedIsProduct(k, 1.69 * (r * r * a));
    assert k as real * (0.49 * (r * r * a)) == 0.49 * (r * r) * (k as real * a);
    assert k as real * (1.69 * (r * r * a)) == 1.69 * (r * r) * (k as real * a);
  }

  /**
   * With no bumps the sampled radius is constant, and the halving makes
   * the approximation exact: the result is π·radius².
   */
  lemma {:induction false} PolarAreaOfRoundBlob(m: MathEnv, radius: real, steps: nat)
    requires m.sin(0.0) == 0.0 && steps > 0
    ensures PolarArea(m, radius, 0, steps) == m.pi * radius * radius
  {
    var a := AngleStep(m, steps);
    RoundSectorSum(m, radius, a, steps);
    assert steps as real * a == m.pi * 2.0;
    assert steps as real * (radius * radius * a) == 2.0 * (m.pi * radius * radius);
  }

  lemma {:induction false} RoundSectorSum(m: MathEnv, radius: real, angleStep: real, n: nat)
    requires m.sin(0.0) == 0.0
    ensures SectorSum(m, radius, 0, angleStep, n) == n as real * (radius * radius * angleStep)
  {
    if n > 0 {
      RoundSectorSum(m, radius, angleStep, n - 1);
      assert SampledRadius(m, radius, 0, (n - 1) as real * angleStep) == radius;
      assert SampledRadius(m, radius, 0, n as real * angleStep) == radius;
    }
  }

  /** The term the loop body adds, from its two sampled radii, is SectorTerm. */
  lemma SectorTermIs(m: MathEnv, radius: real, bumps: int, angleStep: real, i: nat, r1: real, r2: real)
    requires r1 == SampledRadius(m, radius, bumps, i as real * angleStep)
    requires r2 == SampledRadius(m, radius, bumps, (i + 1) as real * angleStep)
    ensures SectorTerm(m, radius, bumps, angleStep, i) == 0.5 * (r1 * r1 + r2 * r2) * angleStep
  {
  }

  /** `approximatePolarArea`: accumulate `steps` sector terms, then halve. */
  method ApproximatePolarArea(m: MathEnv, radius: real, bumps: int, steps: nat) returns (area: real)
    ensures area == PolarArea(m, radius, bumps, steps)
    ensures area >= 0.0
  {
    area := 0.0;
    var angleStep := AngleStep(m, steps);
    for i := 0 to steps
      invariant area == SectorSum(m, radius, bumps, angleStep, i)
    {
      var theta := i as real * angleStep;
      var nextTheta := (i + 1) as real * angleStep;
      var r1 := SampledRadius(m, radius, bumps, theta);
      var r2 := SampledRadius(m, radius, bumps, nextTheta);
      SectorTermIs(m, radius, bumps, angleStep, i, r1, r2);
      area := area + 0.5 * (r1 * r1 + r2 * r2) * angleStep;
    }
    SectorSumNonNegative(m, radius, bumps, angleStep, steps);
    area := area / 2.0;
  }

  /** The area drawShape records: the polar approximation for Random, calculateArea otherwise. */
  function ShapeArea(m: MathEnv, meta: TypeShape, bump: RandomDraw): real
  {
    if meta.kind == Random.Code() then PolarArea(m, meta.size, BumpCount(bump), POLAR_STEPS)
    else CalculateArea(m, meta.kind, meta.size)
  }

  /**
   * Every area drawShape records is non-negative for a non-negative size,
   * given that the host's sine is non-negative at the three polygon angles
   * 2π/3, 2π/5 and 2π/6 (it is: each lies in (0, π)).
   */
  lemma ShapeAreaNonNegative(m: MathEnv, meta: TypeShape, bump: RandomDraw)
    requires KindOf(meta.kind).Some? && meta.size >= 0.0
    requires m.sin((2.0 * m.pi) / 3.0) >= 0.0
    requires m.sin((2.0 * m.pi) / 5.0) >= 0.0
    requires m.sin((2.0 * m.pi) / 6.0) >= 0.0
    ensures ShapeArea(m, meta, bump) >= 0.0
  {
    var kind := KindOf(meta.kind).value;
    if kind == Random {
      PolarAreaBounds(m, meta.size, BumpCount(bump), POLAR_STEPS);
      assert m.pi * meta.size * meta.size >= 0.0;
    } else if kind in SIDES_MAP {
      PolygonAreaNonNegative(m, kind, meta.size);
    } else {
      ClosedFormAreas(m, meta.size);
    }
  }

  /** A polygon kind's area is non-negative when the sine at its angle is. */
  lemma PolygonAreaNonNegative(m: MathEnv, kind: ShapeKind, size: real)
    requires kind in SIDES_MAP
    requires m.sin((2.0 * m.pi) / Sides(kind) as real) >= 0.0
    ensures RegularPolygonArea(m, kind, size) >= 0.0
  {
    var r := size / 2.0;
    assert r * r >= 0.0;
    assert Sides(kind) as real * (r * r) >= 0.0;
  }

  /**
   * `drawShape` without its drawing commands: a fresh handle placed at the
   * metadata's position, the area for the kind, the metadata itself and a
   * zero velocity.  `bump` is the draw the Random kind takes for its bump
   * count; the other kinds do not use it.
   */
  method DrawShape(m: MathEnv, meta: TypeShape, bump: RandomDraw) returns (d: ShapeData)
    requires KindOf(meta.kind).Some?
    ensures fresh(d) && fresh(d.shape)
    ensures d.meta == meta && d.velocityY == 0.0
    ensures d.shape.x == meta.position.x && d.shape.y == meta.position.y
    ensures d.area == ShapeArea(m, meta, bump)
    ensures meta.kind == Random.Code() ==> d.area == PolarArea(m, meta.size, BumpCount(bump), POLAR_STEPS)
    ensures meta.kind != Random.Code() ==> d.area == CalculateArea(m, meta.kind, meta.size)
  {
    var graph := new Graphic(meta.position.x, meta.position.y);
    var shapeSize := meta.size;
    var area: real;
    match KindOf(meta.kind).value {
      case Random =>
        var bumps := BumpCount(bump);
        var rad := meta.size;
        area := ApproximatePolarArea(m, rad, bumps, POLAR_STEPS);
      case _ =>
        area := CalculateArea(m, meta.kind, shapeSize);
    }
    d := new ShapeData(graph, area, meta);
  }
}
