/** What quantization, normalization and rebasing promise, for every parameter and every space. */
module RecipeLaws {
  import opened Prelude
  import opened RecipeSpace

  /** The grid cell of the upper bound does not reach past it, as when the range is a whole multiple of the step. */
  predicate TopCellFits(p: Parameter) { Grid(p, Cell(p, p.hi)) <= p.hi }

  ghost predicate WholeMultiple(p: Parameter) { exists n: nat :: p.hi == Grid(p, n) }

  predicate Aligned(s: Space) { TopCellFits(s.grind) && TopCellFits(s.dose) && TopCellFits(s.output) }

  predicate InSpace(s: Space, t: Triple) { InBounds(s.grind, t.grind) && InBounds(s.dose, t.dose) && InBounds(s.output, t.output) }

  lemma TimesAtMost(a: real, b: real, s: real)
    requires s > 0.0 && a <= b
    ensures a * s <= b * s
  {
  }

  lemma TimesLess(a: real, b: real, s: real)
    requires s > 0.0 && a < b
    ensures a * s < b * s
  {
  }

  lemma RatioInUnit(n: real, w: real)
    requires 0.0 <= n <= w && 0.0 < w
    ensures 0.0 <= n / w <= 1.0 && (n / w) * w == n
  {
    var x := n / w;
    assert x * w == n;
    if x > 1.0 {
      TimesLess(1.0, x, w);
    } else if x < 0.0 {
      TimesLess(x, 0.0, w);
    }
  }

  /** How many steps v lies above the lower bound. */
  function Steps(p: Parameter, v: real): (c: real)
    ensures v == p.lo + c * p.step
  {
    (v - p.lo) / p.step
  }

  lemma CellNotAbove(p: Parameter, v: real)
    ensures Grid(p, Cell(p, v)) - v <= 0.500000000001 * p.step
  {
    var c, k := Steps(p, v), Cell(p, v) as real;
    TimesAtMost(k - c, 0.500000000001, p.step);
    assert (k - c) * p.step == k * p.step - c * p.step;
  }

  lemma CellNotBelow(p: Parameter, v: real)
    ensures v - Grid(p, Cell(p, v)) < 0.499999999999 * p.step
  {
    var c, k := Steps(p, v), Cell(p, v) as real;
    TimesLess(c - k, 0.499999999999, p.step);
    assert (c - k) * p.step == c * p.step - k * p.step;
  }

  lemma CellNear(p: Parameter, v: real)
    ensures Grid(p, Cell(p, v)) - v <= 0.500000000001 * p.step
    ensures v - Grid(p, Cell(p, v)) < 0.499999999999 * p.step
  {
    CellNotAbove(p, v);
    CellNotBelow(p, v);
  }

  lemma CellOfGrid(p: Parameter, k: int)
    ensures Cell(p, Grid(p, k)) == k
  {
    assert Grid(p, k) - p.lo == (k as real) * p.step;
    assert (Grid(p, k) - p.lo) / p.step == k as real;
  }

  lemma GridMonotone(p: Parameter, j: int, k: int)
    requires j <= k
    ensures Grid(p, j) <= Grid(p, k)
  {
    TimesAtMost(j as real, k as real, p.step);
  }

  lemma CellMonotone(p: Parameter, v: real, w: real)
    requires v <= w
    ensures Cell(p, v) <= Cell(p, w)
    ensures Grid(p, Cell(p, v)) <= Grid(p, Cell(p, w))
  {
    if Steps(p, v) > Steps(p, w) {
      TimesLess(Steps(p, w), Steps(p, v), p.step);
    }
    GridMonotone(p, Cell(p, v), Cell(p, w));
  }

  lemma CellOfInside(p: Parameter, v: real)
    requires p.lo <= v
    ensures Cell(p, v) >= 0 && p.lo <= Grid(p, Cell(p, v))
  {
    CellOfGrid(p, 0);
    CellMonotone(p, p.lo, v);
  }

  /** Quantizing stays in bounds, moves a value by half a step at most and is a projection. */
  lemma QuantizeProjects(p: Parameter, v: real)
    requires Accepts(p, v)
    ensures Quantize(p, v).Ok?
    ensures var q := Quantize(p, v).value; InBounds(p, q) && Quantize(p, q) == Ok(q)
    ensures InBounds(p, v) ==>
      var q := Quantize(p, v).value; q - v <= 0.500000000001 * p.step && v - q <= 0.500000000001 * p.step
  {
    var c := Clip(p, v);
    var k := Cell(p, c);
    CellNear(p, c);
    CellOfInside(p, c);
    if Grid(p, k) <= p.hi {
      CellOfGrid(p, k);
    } else {
      CellMonotone(p, c, p.hi);
    }
  }

  lemma QuantizeMonotone(p: Parameter, v: real, w: real)
    requires v <= w && Accepts(p, v) && Accepts(p, w)
    ensures Quantize(p, v).value <= Quantize(p, w).value
  {
    CellMonotone(p, Clip(p, v), Clip(p, w));
  }

  lemma WholeMultipleFits(p: Parameter)
    requires WholeMultiple(p)
    ensures TopCellFits(p)
  {
    var n: nat :| p.hi == Grid(p, n);
    CellOfGrid(p, n);
  }

  lemma CellBelow(p: Parameter, v: real, n: int)
    requires v - Grid(p, n) < 0.499999999999 * p.step
    ensures Cell(p, v) <= n
  {
    var d := Steps(p, v) - n as real;
    assert d * p.step == Steps(p, v) * p.step - (n as real) * p.step;
    if d >= 0.499999999999 {
      TimesAtMost(0.499999999999, d, p.step);
    }
  }

  /** The range is a whole multiple of the step, or less than half a step is left over. */
  lemma TopCellFitsExactly(p: Parameter)
    ensures TopCellFits(p) <==> exists n: nat :: Grid(p, n) <= p.hi && p.hi - Grid(p, n) < 0.499999999999 * p.step
  {
    CellNear(p, p.hi);
    CellOfInside(p, p.hi);
    if TopCellFits(p) {
      var n: nat := Cell(p, p.hi);
      assert Grid(p, n) <= p.hi;
    }
    if n: nat :| Grid(p, n) <= p.hi && p.hi - Grid(p, n) < 0.499999999999 * p.step {
      CellBelow(p, p.hi, n);
      GridMonotone(p, Cell(p, p.hi), n);
    }
  }

  /** A proposal and an observation of the same in-bounds value agree exactly when no clipping happened. */
  lemma QuantizeAgrees(p: Parameter, v: real)
    requires InBounds(p, v)
    ensures Quantize(p, v) == Ok(QuantizeObservation(p, v)) <==> QuantizeObservation(p, v) <= p.hi
    ensures TopCellFits(p) ==> Quantize(p, v) == Ok(QuantizeObservation(p, v))
  {
    CellOfInside(p, v);
    CellMonotone(p, v, p.hi);
  }

  /** Observing a quantized value again changes nothing; true of every value exactly when the top cell fits. */
  lemma {:induction false} ObservingQuantizedIsStable(p: Parameter)
    ensures TopCellFits(p) <==> forall v :: InBounds(p, v) ==> QuantizeObservation(p, Quantize(p, v).value) == Quantize(p, v).value
  {
    if TopCellFits(p) {
      forall v | InBounds(p, v)
        ensures QuantizeObservation(p, Quantize(p, v).value) == Quantize(p, v).value
      {
        QuantizeAgrees(p, v);
        CellOfGrid(p, Cell(p, v));
      }
    } else {
      assert InBounds(p, p.hi);
      assert Quantize(p, p.hi).value == p.hi;
      assert QuantizeObservation(p, p.hi) > p.hi;
    }
  }

  lemma ShareOf(x: real, w: real)
    requires 0.0 <= x <= 1.0 && 0.0 < w
    ensures 0.0 <= x * w <= w
  {
    TimesAtMost(0.0, x, w);
    TimesAtMost(x, 1.0, w);
    assert 1.0 * w == w;
  }

  lemma BetweenAtMost(p: Parameter, x: real)
    requires 0.0 <= x <= 1.0
    ensures Between(p, x) <= p.hi
  {
    ShareOf(x, p.hi - p.lo);
  }

  lemma BetweenInBounds(p: Parameter, x: real)
    requires 0.0 <= x <= 1.0
    ensures ClampUnit(x) == x && Inverse(p, x) == Ok(Between(p, x)) && InBounds(p, Between(p, x))
  {
    BetweenAtMost(p, x);
    ShareOf(x, p.hi - p.lo);
  }

  lemma NormalizeInverts(p: Parameter, v: real)
    requires InBounds(p, v)
    ensures 0.0 <= Scale(p, v) <= 1.0
    ensures Inverse(p, Scale(p, v)) == Ok(v)
  {
    RatioInUnit(v - p.lo, p.hi - p.lo);
    assert Between(p, Scale(p, v)) == v;
  }

  lemma QuantizeRecipeProjects(s: Space, t: Triple)
    requires QuantizeRecipe(s, t).Ok?
    ensures var q := QuantizeRecipe(s, t).value; InSpace(s, q) && QuantizeRecipe(s, q) == Ok(q)
  {
    QuantizeProjects(s.grind, t.grind);
    QuantizeProjects(s.dose, t.dose);
    QuantizeProjects(s.output, t.output);
  }

  /** Normalizing a canonical recipe and inverting it gives the recipe back, for both grinder directions. */
  lemma {:induction false} InverseUndoesNormalize(s: Space, t: Triple)
    requires QuantizeRecipe(s, t).Ok?
    ensures var q := QuantizeRecipe(s, t).value;
      NormalizeRecipe(s, q).Ok? && InUnitCube(NormalizeRecipe(s, q).value) && InverseRecipe(s, NormalizeRecipe(s, q).value) == Ok(q)
  {
    QuantizeRecipeProjects(s, t);
    var q := QuantizeRecipe(s, t).value;
    NormalizeInverts(s.grind, q.grind);
    NormalizeInverts(s.dose, q.dose);
    NormalizeInverts(s.output, q.output);
  }

  /** The feasible positions are exactly the unit cube, up to the round-off tolerance. */
  lemma UnitCubeIsFeasible(s: Space, x: Point)
    ensures Feasible(s, x) <==>
      && -0.000000001 <= x.x <= 1.000000001
      && -0.000000001 <= x.y <= 1.000000001
      && -0.000000001 <= x.z <= 1.000000001
  {
    if NearUnitCube(x) {
      var n := ClampPoint(x);
      BetweenInBounds(s.grind, Fineness(s, n.x));
      BetweenInBounds(s.dose, n.y);
      BetweenInBounds(s.output, n.z);
      QuantizeProjects(s.grind, Inverse(s.grind, Fineness(s, n.x)).value);
      QuantizeProjects(s.dose, Inverse(s.dose, n.y).value);
      QuantizeProjects(s.output, Inverse(s.output, n.z).value);
    }
  }

  /** A created recipe lies in the unit cube, in bounds, and is the fixed point of its own quantization. */
  lemma CreateIsCanonical(s: Space, t: Triple, now: nat)
    requires Create(s, t, now).Ok?
    ensures var r := Create(s, t, now).value;
      InUnitCube(r.position) && InSpace(s, r.controls) && r.id == RecipeId(s.version, r.controls) && r.createdAt == now
    ensures var r := Create(s, t, now).value; Create(s, r.controls, now) == Ok(r)
  {
    QuantizeRecipeProjects(s, t);
    InverseUndoesNormalize(s, t);
  }

  /** In bounds, creating and observing yield the same recipe once the space is aligned. */
  lemma CreateObserveAgree(s: Space, t: Triple, now: nat)
    requires Aligned(s) && InSpace(s, t) && InEnvelope(t)
    ensures Create(s, t, now) == Observe(s, t, now)
  {
    QuantizeAgrees(s.grind, t.grind);
    QuantizeAgrees(s.dose, t.dose);
    QuantizeAgrees(s.output, t.output);
    QuantizeProjects(s.grind, t.grind);
    QuantizeProjects(s.dose, t.dose);
    QuantizeProjects(s.output, t.output);
    InverseUndoesNormalize(s, t);
  }

  /** A created recipe, observed as pulled, has the same identity in an aligned space. */
  lemma ObservedAsCreated(s: Space, t: Triple, now: nat, later: nat)
    requires Aligned(s) && Create(s, t, now).Ok? && InEnvelope(Create(s, t, now).value.controls)
    ensures var r := Create(s, t, now).value; Observe(s, r.controls, later) == Ok(r.(createdAt := later))
  {
    CreateIsCanonical(s, t, now);
    CreateObserveAgree(s, Create(s, t, now).value.controls, now);
  }

  /** Rebasing is path independent: only the last limits matter. */
  lemma RebaseTwice(s: Space, d: RecipeDomain, e: RecipeDomain)
    requires WithDomain(s, d).Ok?
    ensures WithDomain(WithDomain(s, d).value, e) == WithDomain(s, e)
  {
    var middle := (s.grind.lo + s.grind.hi) / 2.0;
    assert ((middle - d.grindRadius) + (middle + d.grindRadius)) / 2.0 == middle;
  }

  /** Rebasing a space that was built around its own limits onto those limits is the identity. */
  lemma RebaseHome(middle: real, g: real, q: real, o: real, finer: bool, d: RecipeDomain)
    requires SpaceAround(middle, g, q, o, finer, d).Ok?
    ensures var s := SpaceAround(middle, g, q, o, finer, d).value; WithDomain(s, s.version) == Ok(s)
  {
    assert ((middle - d.grindRadius) + (middle + d.grindRadius)) / 2.0 == middle;
  }

  // ----- where recipes lie -----

  /** x is the share of the range that lies below v: 0 at the lower bound, 1 at the upper one, and affine. */
  predicate Along(p: Parameter, v: real, x: real) { x * (p.hi - p.lo) == v - p.lo }

  /** The first coordinate is fineness, measured from the coarse end of the grinder; the others are dose and output. */
  predicate Positioned(s: Space, t: Triple, x: Point)
  {
    && Along(s.grind, t.grind, if s.higherIsFiner then x.x else 1.0 - x.x)
    && Along(s.dose, t.dose, x.y) && Along(s.output, t.output, x.z)
  }

  lemma ScaleIsAlong(p: Parameter, v: real)
    ensures Along(p, v, Scale(p, v))
  {
  }

  /** A created recipe lies at its own controls. */
  lemma CreatePositions(s: Space, t: Triple, now: nat)
    requires Create(s, t, now).Ok?
    ensures Positioned(s, Create(s, t, now).value.controls, Create(s, t, now).value.position)
  {
    var q := Create(s, t, now).value.controls;
    ScaleIsAlong(s.grind, q.grind);
    ScaleIsAlong(s.dose, q.dose);
    ScaleIsAlong(s.output, q.output);
  }

  /** So does an observed one, within the limits or outside of them. */
  lemma ObservePositions(s: Space, t: Triple, now: nat)
    requires Observe(s, t, now).Ok?
    ensures Positioned(s, Observe(s, t, now).value.controls, Observe(s, t, now).value.position)
  {
    var q := Observe(s, t, now).value.controls;
    ScaleIsAlong(s.grind, q.grind);
    ScaleIsAlong(s.dose, q.dose);
    ScaleIsAlong(s.output, q.output);
  }

  lemma NormalizedIsPositioned(s: Space, t: Triple)
    ensures Positioned(s, t, NormalizeObservation(s, t))
  {
    ScaleIsAlong(s.grind, t.grind);
    ScaleIsAlong(s.dose, t.dose);
    ScaleIsAlong(s.output, t.output);
  }

  lemma AlongOrders(p: Parameter, v: real, w: real, x: real, y: real)
    requires Along(p, v, x) && Along(p, w, y)
    ensures v < w <==> x < y
  {
    if x < y {
      TimesLess(x, y, p.hi - p.lo);
    } else {
      TimesAtMost(y, x, p.hi - p.lo);
    }
  }

  lemma AlongEnds(p: Parameter, v: real, x: real)
    requires Along(p, v, x)
    ensures (v == p.lo <==> x == 0.0) && (v == p.hi <==> x == 1.0)
  {
    assert Along(p, p.lo, 0.0) && Along(p, p.hi, 1.0);
    AlongOrders(p, v, p.lo, x, 0.0);
    AlongOrders(p, p.lo, v, 0.0, x);
    AlongOrders(p, v, p.hi, x, 1.0);
    AlongOrders(p, p.hi, v, 1.0, x);
  }

  /** A finer setting has the larger first coordinate, more coffee the larger second and more drink the larger third; the coarsest setting
      and the lower bounds lie at 0, the finest and the upper bounds at 1. */
  lemma PositionsOrder(s: Space, t: Triple, u: Triple, x: Point, y: Point)
    requires Positioned(s, t, x) && Positioned(s, u, y)
    ensures x.x < y.x <==> if s.higherIsFiner then t.grind < u.grind else u.grind < t.grind
    ensures (x.y < y.y <==> t.dose < u.dose) && (x.z < y.z <==> t.output < u.output)
    ensures (x.x == 0.0 <==> t.grind == if s.higherIsFiner then s.grind.lo else s.grind.hi)
    ensures (x.x == 1.0 <==> t.grind == if s.higherIsFiner then s.grind.hi else s.grind.lo)
    ensures (x.y == 0.0 <==> t.dose == s.dose.lo) && (x.y == 1.0 <==> t.dose == s.dose.hi)
    ensures (x.z == 0.0 <==> t.output == s.output.lo) && (x.z == 1.0 <==> t.output == s.output.hi)
  {
    if s.higherIsFiner {
      AlongOrders(s.grind, t.grind, u.grind, x.x, y.x);
      AlongEnds(s.grind, t.grind, x.x);
    } else {
      AlongOrders(s.grind, u.grind, t.grind, 1.0 - y.x, 1.0 - x.x);
      AlongEnds(s.grind, t.grind, 1.0 - x.x);
    }
    AlongOrders(s.dose, t.dose, u.dose, x.y, y.y);
    AlongOrders(s.output, t.output, u.output, x.z, y.z);
    AlongEnds(s.dose, t.dose, x.y);
    AlongEnds(s.output, t.output, x.z);
  }

  // ----- the nearest value a machine can execute -----

  function Distance(a: real, b: real): real { if a < b then b - a else a - b }

  ghost predicate Executable(p: Parameter, q: real) { exists k :: q == Grid(p, k) }

  /** q is a value within the limits that the machine can execute, or the upper limit; no other such value is nearer to v, up to the tie
      break and the round-off tolerance. */
  ghost predicate Nearest(p: Parameter, v: real, q: real)
  {
    && InBounds(p, q) && (Executable(p, q) || q == p.hi)
    && forall k :: InBounds(p, Grid(p, k)) ==> Distance(v, q) <= Distance(v, Grid(p, k)) + 2.0 * ROUNDOFF + 0.000000000002 * p.step
  }

  lemma GridApart(p: Parameter, j: int, k: int)
    requires j < k
    ensures Grid(p, j) + p.step <= Grid(p, k)
  {
    TimesAtMost((j + 1) as real, k as real, p.step);
    assert ((j + 1) as real) * p.step == (j as real) * p.step + p.step;
  }

  lemma CellIsNearest(p: Parameter, v: real, k: int)
    ensures Distance(v, Grid(p, Cell(p, v))) <= Distance(v, Grid(p, k)) + 0.000000000002 * p.step
  {
    var j := Cell(p, v);
    CellNear(p, v);
    if j < k {
      GridApart(p, j, k);
    } else if k < j {
      GridApart(p, k, j);
    }
  }

  /** Quantizing takes the nearest value that can be executed. */
  lemma QuantizeIsNearest(p: Parameter, v: real)
    requires Quantize(p, v).Ok?
    ensures Nearest(p, v, Quantize(p, v).value)
  {
    var c := Clip(p, v);
    var q := Quantize(p, v).value;
    QuantizeProjects(p, v);
    CellOfInside(p, c);
    assert q == Grid(p, Cell(p, c)) || q == p.hi;
    forall k | InBounds(p, Grid(p, k))
      ensures Distance(v, q) <= Distance(v, Grid(p, k)) + 2.0 * ROUNDOFF + 0.000000000002 * p.step
    {
      CellIsNearest(p, c, k);
      assert Distance(c, q) <= Distance(c, Grid(p, Cell(p, c)));
    }
  }

  // ----- what can be placed -----

  /** An observation inside the physical envelope whose quantized dose and output are positive. */
  predicate Placeable(s: Space, t: Triple)
  {
    InEnvelope(t) && QuantizeObserved(s, t).dose > 0.0 && QuantizeObserved(s, t).output > 0.0
  }

  lemma ObserveCondition(s: Space, t: Triple, now: nat)
    ensures Observe(s, t, now).Ok? <==> Placeable(s, t)
    ensures Observe(s, t, now).Ok? ==> Observe(s, t, now).value.id == RecipeId(s.version, QuantizeObserved(s, t))
  {
  }

  /** What can be placed, in numbers: a grinder setting within a thousand steps, a dose from 0.1 to 100 and an output from 0.1 to 1000 grams,
      neither of which rounds to nothing. */
  lemma PlaceableMeans(s: Space, t: Triple)
    ensures Placeable(s, t) <==>
      && -1000.0 <= t.grind <= 1000.0 && 0.1 <= t.dose <= 100.0 && 0.1 <= t.output <= 1000.0
      && QuantizeObservation(s.dose, t.dose) > 0.0 && QuantizeObservation(s.output, t.output) > 0.0
  {
  }

  predicate WithinRounding(p: Parameter, v: real) { p.lo - 0.000000001 <= v <= p.hi + 0.000000001 }

  /** What can be proposed, in numbers: in bounds up to the rounding tolerance, with dose and output above zero on the grid. */
  lemma ProposableMeans(s: Space, t: Triple, now: nat)
    ensures Create(s, t, now).Ok? <==>
      && WithinRounding(s.grind, t.grind) && WithinRounding(s.dose, t.dose) && WithinRounding(s.output, t.output)
      && QuantizeRecipe(s, t).Ok? && QuantizeRecipe(s, t).value.dose > 0.0 && QuantizeRecipe(s, t).value.output > 0.0
    ensures QuantizeRecipe(s, t).Ok? <==>
      WithinRounding(s.grind, t.grind) && WithinRounding(s.dose, t.dose) && WithinRounding(s.output, t.output)
  {
    if QuantizeRecipe(s, t).Ok? {
      QuantizeRecipeProjects(s, t);
      InverseUndoesNormalize(s, t);
    }
  }

  /** Every resolution fits once into the range the new limits leave. */
  predicate StepsFit(s: Space, d: RecipeDomain)
  {
    && s.grind.step <= 2.0 * d.grindRadius
    && s.dose.step <= d.doseMax - d.doseMin
    && s.output.step <= d.outputMax - d.outputMin
  }

  lemma RebaseCondition(s: Space, d: RecipeDomain)
    ensures WithDomain(s, d).Ok? <==> StepsFit(s, d)
  {
  }
}
