/** The values of the optimization domain: shots, comparisons, trust region, suggestions and runs. */
module Cpbo {
  import opened Prelude
  import opened RecipeSpace

  /** How the hashes of recipe identifiers sort; identifiers it does not list come last. */
  type Order = map<RecipeId, nat>

  predicate Precedes(order: Order, a: RecipeId, b: RecipeId) { a in order && (b !in order || order[a] < order[b]) }

  /** A run's identifier enters the hash of each of its recipe identifiers, and so decides how they sort. Nothing is known about
      that order: a run only ever has finitely many recipes, and every order of them is one of these. */
  datatype RunId = RunId(number: nat, order: Order)

  type ShotId = nat
  type ComparisonId = nat
  type SuggestionId = nat
  type ControlId = nat

  datatype Preference = NewBetter | AnchorBetter | Tie
  datatype Mode = GlobalPrevious | BestIncumbent
  datatype Status = Valid | MachineFailure | Aborted | Excluded
  datatype Action = Improved | Expanded | NonImprovement | Contracted | Converged | Resumed

  /** What a machine reports or is told to do. */
  datatype Controls = Controls(recipe: Triple, higherIsFiner: bool)

  datatype Abstention = Abstention(anchor: ShotId, createdAt: nat)

  /** A physical shot; `abstention` is the reserved entry of its metadata, `notes` the rest. */
  datatype Shot = Shot(
    id: ShotId, recipe: RecipeId, sequence: nat, status: Status, observed: Option<Triple>,
    abstention: Option<Abstention>, notes: map<nat, nat>)

  datatype Comparison = Comparison(
    id: ComparisonId, run: RunId, newShot: ShotId, anchor: ShotId, preference: Preference, mode: Mode, createdAt: nat)

  /** Rows are listed by creation time, then identifier. */
  predicate Before(a: Comparison, b: Comparison)
  {
    a.createdAt < b.createdAt || (a.createdAt == b.createdAt && a.id < b.id)
  }

  datatype Limits = Limits(minimum: real, maximum: real, successTolerance: nat, failureTolerance: nat)

  datatype ScheduleRow = ScheduleRow(initial: real, limits: Limits) {
    predicate WellFormed() {
      && 0.0 < limits.minimum < initial <= limits.maximum
      && 1 <= limits.successTolerance && 1 <= limits.failureTolerance
    }
  }

  /** Trust-region configuration. */
  type Schedule = s: ScheduleRow | s.WellFormed() witness ScheduleRow(0.8, Limits(0.0078125, 1.6, 3, 2))

  datatype Transition = Transition(
    action: Action, centerBefore: Point, centerAfter: Point, lengthBefore: real, lengthAfter: real,
    successCount: nat, failureCount: nat, limits: Limits, preference: Option<Preference>,
    comparison: Option<ComparisonId>, newShot: Option<ShotId>, anchor: Option<ShotId>, incumbent: Option<ShotId>,
    after: Option<ComparisonId>, control: Option<ControlId>, createdAt: Option<nat>)

  datatype TrustRegion = TrustRegion(
    center: Point, length: real, successCount: nat, failureCount: nat,
    restartPending: bool, locallyConverged: bool, transitions: seq<Transition>)

  datatype OptimizerState = OptimizerState(
    previous: Option<ShotId>, incumbent: Option<ShotId>, iteration: nat, region: TrustRegion,
    model: Option<nat>, trace: Option<nat>, seed: nat, configuration: nat,
    pendingRecipe: Option<RecipeId>, pendingAnchor: Option<ShotId>, pendingShot: Option<ShotId>, updatedAt: nat)

  datatype Suggestion = Suggestion(
    id: SuggestionId, recipe: RecipePoint, anchor: ShotId, mode: Mode, iteration: nat, createdAt: nat)

  datatype SuggestionStatus = Pending | AwaitingPreference | Resolved | InvalidShot | Superseded

  datatype Run = Run(id: RunId, mode: Mode, space: Space, configuration: nat, active: bool)
}
