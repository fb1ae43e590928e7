/** The quantized recipe space of one optimization run and the arithmetic on it. */
module RecipeSpace {
  import opened Prelude

  const ROUNDOFF := 0.000000001
  const GRIND_RADIUS_MIN := 0.1
  const GRIND_RADIUS_MAX := 1000.0
  const DOSE_MIN := 0.1
  const DOSE_MAX := 100.0
  const OUTPUT_MIN := 0.1
  const OUTPUT_MAX := 1000.0

  /** One physical control: its bounds and the resolution the machine can execute. */
  datatype Axis = Axis(lo: real, hi: real, step: real) {
    predicate WellFormed() { lo < hi && 0.0 < step <= hi - lo }
  }

  type Parameter = a: Axis | a.WellFormed() witness Axis(0.0, 1.0, 1.0)

  predicate InBounds(p: Parameter, v: real) { p.lo <= v <= p.hi }

  /** Physical validation with the round-off tolerance. */
  predicate Accepts(p: Parameter, v: real) { p.lo - ROUNDOFF <= v <= p.hi + ROUNDOFF }

  function Clip(p: Parameter, v: real): real { MinReal(p.hi, MaxReal(p.lo, v)) }

  /** Index of the grid cell nearest to v; an exact half goes up, helped by a tie break of 1e-12. */
  function Cell(p: Parameter, v: real): int { ((v - p.lo) / p.step + 0.500000000001).Floor }

  function Grid(p: Parameter, k: int): real { p.lo + (k as real) * p.step }

  /** Quantization of a value the optimizer may propose. */
  function Quantize(p: Parameter, v: real): Result<real>
  {
    if Accepts(p, v) then Ok(Clip(p, Grid(p, Cell(p, Clip(p, v))))) else Err(OutsideBounds)
  }

  /** Quantization of an observed value, which may lie outside the bounds and is not clipped. */
  function QuantizeObservation(p: Parameter, v: real): real { Grid(p, Cell(p, v)) }

  function Scale(p: Parameter, v: real): real { (v - p.lo) / (p.hi - p.lo) }

  function Normalize(p: Parameter, v: real): Result<real>
  {
    if InBounds(p, v) then Ok(Scale(p, v)) else Err(OutsideBounds)
  }

  predicate NearUnit(x: real) { -ROUNDOFF <= x <= 1.0 + ROUNDOFF }

  function ClampUnit(x: real): real { MinReal(1.0, MaxReal(0.0, x)) }

  function Between(p: Parameter, x: real): real { p.lo + x * (p.hi - p.lo) }

  function Inverse(p: Parameter, x: real): Result<real>
  {
    if NearUnit(x) then Ok(Between(p, ClampUnit(x))) else Err(OutsideBounds)
  }

  /** Search limits configured by the user; they also identify the version of a space. */
  datatype DomainRow = DomainRow(grindRadius: real, doseMin: real, doseMax: real, outputMin: real, outputMax: real) {
    predicate WellFormed() {
      && GRIND_RADIUS_MIN <= grindRadius <= GRIND_RADIUS_MAX
      && DOSE_MIN <= doseMin < doseMax <= DOSE_MAX
      && OUTPUT_MIN <= outputMin < outputMax <= OUTPUT_MAX
    }
  }

  type RecipeDomain = d: DomainRow | d.WellFormed() witness DomainRow(10.0, 6.0, 30.0, 5.0, 250.0)

  datatype Space = Space(grind: Parameter, dose: Parameter, output: Parameter, higherIsFiner: bool, version: RecipeDomain)

  datatype Triple = Triple(grind: real, dose: real, output: real)

  /** Normalized coordinates: fineness, dose, output. */
  datatype Point = Point(x: real, y: real, z: real)

  /** Recipe identifiers hash the run, the space version and the quantized triple; here they are that content. */
  datatype RecipeId = RecipeId(version: RecipeDomain, controls: Triple)

  datatype RecipePoint = RecipePoint(id: RecipeId, controls: Triple, position: Point, createdAt: nat)

  function QuantizeRecipe(s: Space, t: Triple): Result<Triple>
  {
    var g :- Quantize(s.grind, t.grind);
    var d :- Quantize(s.dose, t.dose);
    var o :- Quantize(s.output, t.output);
    Ok(Triple(g, d, o))
  }

  function QuantizeObserved(s: Space, t: Triple): Triple
  {
    Triple(QuantizeObservation(s.grind, t.grind), QuantizeObservation(s.dose, t.dose), QuantizeObservation(s.output, t.output))
  }

  function Fineness(s: Space, x: real): real { if s.higherIsFiner then x else 1.0 - x }

  function NormalizeRecipe(s: Space, t: Triple): Result<Point>
  {
    var g :- Normalize(s.grind, t.grind);
    var d :- Normalize(s.dose, t.dose);
    var o :- Normalize(s.output, t.output);
    Ok(Point(Fineness(s, g), d, o))
  }

  function NormalizeObservation(s: Space, t: Triple): Point
  {
    Point(Fineness(s, Scale(s.grind, t.grind)), Scale(s.dose, t.dose), Scale(s.output, t.output))
  }

  predicate NearUnitCube(x: Point) { NearUnit(x.x) && NearUnit(x.y) && NearUnit(x.z) }

  predicate InUnitCube(x: Point) { 0.0 <= x.x <= 1.0 && 0.0 <= x.y <= 1.0 && 0.0 <= x.z <= 1.0 }

  function ClampPoint(x: Point): Point { Point(ClampUnit(x.x), ClampUnit(x.y), ClampUnit(x.z)) }

  /** Physical recipe at a normalized position, on the executable grid. */
  function InverseRecipe(s: Space, x: Point): Result<Triple>
  {
    var _ :- Need(NearUnitCube(x), OutsideBounds);
    var n := ClampPoint(x);
    var g :- Inverse(s.grind, Fineness(s, n.x));
    var d :- Inverse(s.dose, n.y);
    var o :- Inverse(s.output, n.z);
    QuantizeRecipe(s, Triple(g, d, o))
  }

  predicate Feasible(s: Space, x: Point) { InverseRecipe(s, x).Ok? }

  /** Physical limits on observed values, independent of any search space. */
  predicate InEnvelope(t: Triple)
  {
    && -GRIND_RADIUS_MAX <= t.grind <= GRIND_RADIUS_MAX
    && DOSE_MIN <= t.dose <= DOSE_MAX
    && OUTPUT_MIN <= t.output <= OUTPUT_MAX
  }

  function MakePoint(s: Space, q: Triple, x: Point, createdAt: nat): Result<RecipePoint>
  {
    if q.dose <= 0.0 || q.output <= 0.0 then Err(NotPositive)
    else Ok(RecipePoint(RecipeId(s.version, q), q, x, createdAt))
  }

  /** The canonical recipe a proposal stands for; refuses values outside the space. */
  function Create(s: Space, t: Triple, createdAt: nat): Result<RecipePoint>
  {
    var q :- QuantizeRecipe(s, t);
    var x :- NormalizeRecipe(s, q);
    MakePoint(s, q, x, createdAt)
  }

  /** The recipe an observation stands for; it may lie outside the space. */
  function Observe(s: Space, t: Triple, createdAt: nat): Result<RecipePoint>
  {
    var _ :- Need(InEnvelope(t), OutsideEnvelope);
    var q := QuantizeObserved(s, t);
    MakePoint(s, q, NormalizeObservation(s, q), createdAt)
  }

  /** The space rebased onto new limits: grind midpoint and resolutions stay. */
  function WithDomain(s: Space, d: RecipeDomain): Result<Space>
  {
    var middle := (s.grind.lo + s.grind.hi) / 2.0;
    SpaceAround(middle, s.grind.step, s.dose.step, s.output.step, s.higherIsFiner, d)
  }

  function SpaceAround(middle: real, grindStep: real, doseStep: real, outputStep: real, higherIsFiner: bool, d: RecipeDomain): Result<Space>
  {
    var g := Axis(middle - d.grindRadius, middle + d.grindRadius, grindStep);
    var q := Axis(d.doseMin, d.doseMax, doseStep);
    var o := Axis(d.outputMin, d.outputMax, outputStep);
    if g.WellFormed() && q.WellFormed() && o.WellFormed() then Ok(Space(g, q, o, higherIsFiner, d)) else Err(OutsideBounds)
  }
}
