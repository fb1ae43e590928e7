/** The persisted form of optimizer states and runs: encoding to JSON values and decoding with the checks of the domain. */
module StateCodec {
  import opened Prelude
  import opened RecipeSpace
  import opened Cpbo

  /** Names of object members; Unknown stands for every other name. */
  datatype Name =
    | RunIdentifier | PreviousShot | IncumbentShot | Iteration | Region | ModelCheckpoint | TraceCheckpoint | RandomSeed
    | ConfigurationVersion | PendingRecipe | PendingAnchor | PendingShot | PendingSuggestionJson | UpdatedAt
    | Center | Length | SuccessCount | FailureCount | RestartPending | LocallyConvergedFlag | Transitions
    | ActionName | Label | CenterBefore | CenterAfter | LengthBefore | LengthAfter | SuccessTolerance | FailureTolerance
    | MinimumLength | MaximumLength | ComparisonName | NewShotName | AnchorName | AfterComparison | ControlEvent | CreatedAt
    | RunContext | ComparisonMode | SpaceName | ActiveFlag
    | Install | Machine | Bean | Grinder | Profile | RawProfileHash | Basket | Water | User | TemperatureProfile | PressureProfile | TasteGoal
    | Unknown(name: string)

  datatype Json = Null | Bool(b: bool) | Int(i: int) | Real(r: real) | Text(s: string) | List(items: seq<Json>) | Object(members: map<Name, Json>)

  type Members = map<Name, Json>

  // ----- stored values: identifiers are text -----

  datatype Identities = Identities(
    comparison: Option<string>, newShot: Option<string>, anchor: Option<string>, incumbent: Option<string>,
    after: Option<string>, control: Option<string>)

  datatype StoredTransition = StoredTransition(
    action: Action, preference: Option<Preference>, centerBefore: Point, centerAfter: Point, lengthBefore: real, lengthAfter: real,
    successCount: int, failureCount: int, limits: StoredLimits, ids: Identities, createdAt: Option<int>)

  datatype StoredLimits = StoredLimits(minimum: real, maximum: real, successTolerance: int, failureTolerance: int)

  datatype StoredRegion = StoredRegion(
    center: Point, length: real, successCount: int, failureCount: int, restartPending: bool, locallyConverged: bool,
    transitions: seq<StoredTransition>)

  datatype Progress = Progress(previous: Option<string>, incumbent: Option<string>, model: Option<string>, trace: Option<string>)

  datatype Work = Work(recipe: Option<string>, anchor: Option<string>, shot: Option<string>, suggestion: Option<string>)

  datatype StoredState = StoredState(
    run: string, progress: Progress, iteration: int, region: StoredRegion, seed: int, configuration: string, work: Work, updatedAt: int)

  // ----- what the domain accepts -----

  const WHITESPACE := {' ', '\t', '\n', '\r'}

  predicate Blank(s: string) { forall i :: 0 <= i < |s| ==> s[i] in WHITESPACE }

  predicate Identifier(s: Option<string>) { s.Some? ==> !Blank(s.value) && |s.value| <= 256 }

  predicate ValidTransition(t: StoredTransition)
  {
    && InUnitCube(t.centerBefore) && InUnitCube(t.centerAfter)
    && t.lengthBefore > 0.0 && t.lengthAfter > 0.0 && t.limits.minimum > 0.0 && t.limits.maximum > 0.0
    && t.limits.minimum <= t.lengthAfter <= t.limits.maximum
    && t.successCount >= 0 && t.failureCount >= 0 && t.limits.successTolerance >= 1 && t.limits.failureTolerance >= 1
    && (t.successCount == 0 || t.failureCount == 0)
    && (if t.action.Resumed? then t.preference.None? && t.ids.comparison.None? else t.preference.Some?)
    && Identifier(t.ids.comparison) && Identifier(t.ids.newShot) && Identifier(t.ids.anchor) && Identifier(t.ids.incumbent)
    && Identifier(t.ids.after) && Identifier(t.ids.control)
    && (t.createdAt.Some? ==> t.createdAt.value >= 0)
  }

  predicate ValidRegion(r: StoredRegion)
  {
    && InUnitCube(r.center) && r.length > 0.0 && r.successCount >= 0 && r.failureCount >= 0
    && (r.successCount == 0 || r.failureCount == 0)
    && (r.locallyConverged ==> r.successCount == 0 && r.failureCount == 0 && !r.restartPending)
    && forall i :: 0 <= i < |r.transitions| ==> ValidTransition(r.transitions[i])
  }

  predicate ValidState(s: StoredState)
  {
    && !Blank(s.run) && s.iteration >= 0 && s.seed >= 0 && s.updatedAt >= 0 && !Blank(s.configuration)
    && ValidRegion(s.region)
    && (s.work.recipe.None? <==> s.work.anchor.None?)
    && (s.work.shot.Some? ==> s.work.recipe.Some?)
  }

  // ----- encoding -----

  function TextOrNull(s: Option<string>): Json { if s.Some? then Text(s.value) else Null }

  function IntOrNull(i: Option<int>): Json { if i.Some? then Int(i.value) else Null }

  function EncodePoint(p: Point): Json { List([Real(p.x), Real(p.y), Real(p.z)]) }

  function ActionText(a: Action): string
  {
    match a
    case Improved => "improved"
    case Expanded => "expanded"
    case NonImprovement => "non_improvement"
    case Contracted => "contracted"
    case Converged => "converged"
    case Resumed => "resumed"
  }

  function PreferenceText(p: Preference): string
  {
    match p
    case NewBetter => "new_better"
    case AnchorBetter => "anchor_better"
    case Tie => "tie"
  }

  function EncodeIdentities(ids: Identities): Members
  {
    map[ComparisonName := TextOrNull(ids.comparison), NewShotName := TextOrNull(ids.newShot), AnchorName := TextOrNull(ids.anchor),
        IncumbentShot := TextOrNull(ids.incumbent), AfterComparison := TextOrNull(ids.after), ControlEvent := TextOrNull(ids.control)]
  }

  function EncodeLimits(l: StoredLimits): Members
  {
    map[SuccessTolerance := Int(l.successTolerance), FailureTolerance := Int(l.failureTolerance),
        MinimumLength := Real(l.minimum), MaximumLength := Real(l.maximum)]
  }

  function EncodeMovement(t: StoredTransition): Members
  {
    map[CenterBefore := EncodePoint(t.centerBefore), CenterAfter := EncodePoint(t.centerAfter),
        LengthBefore := Real(t.lengthBefore), LengthAfter := Real(t.lengthAfter)]
  }

  function EncodeOutcome(t: StoredTransition): Members
  {
    map[ActionName := Text(ActionText(t.action)),
        Label := if t.preference.Some? then Text(PreferenceText(t.preference.value)) else Null,
        SuccessCount := Int(t.successCount), FailureCount := Int(t.failureCount), CreatedAt := IntOrNull(t.createdAt)]
  }

  /** One object with the members of all four parts. */
  function EncodeTransition(t: StoredTransition): Json
  {
    Object(EncodeOutcome(t) + EncodeMovement(t) + EncodeLimits(t.limits) + EncodeIdentities(t.ids))
  }

  function EncodeTransitions(ts: seq<StoredTransition>): seq<Json>
  {
    if ts == [] then [] else EncodeTransitions(ts[..|ts| - 1]) + [EncodeTransition(ts[|ts| - 1])]
  }

  function EncodeRegion(r: StoredRegion): Json
  {
    Object(map[
      Center := EncodePoint(r.center), Length := Real(r.length), SuccessCount := Int(r.successCount), FailureCount := Int(r.failureCount),
      RestartPending := Bool(r.restartPending), LocallyConvergedFlag := Bool(r.locallyConverged),
      Transitions := List(EncodeTransitions(r.transitions))])
  }

  function EncodeState(s: StoredState): Json
  {
    Object(map[
      RunIdentifier := Text(s.run), PreviousShot := TextOrNull(s.progress.previous), IncumbentShot := TextOrNull(s.progress.incumbent),
      Iteration := Int(s.iteration), Region := EncodeRegion(s.region),
      ModelCheckpoint := TextOrNull(s.progress.model), TraceCheckpoint := TextOrNull(s.progress.trace),
      RandomSeed := Int(s.seed), ConfigurationVersion := Text(s.configuration),
      Name.PendingRecipe := TextOrNull(s.work.recipe), Name.PendingAnchor := TextOrNull(s.work.anchor),
      Name.PendingShot := TextOrNull(s.work.shot), PendingSuggestionJson := TextOrNull(s.work.suggestion), UpdatedAt := Int(s.updatedAt)])
  }

  // ----- decoding -----

  function AsText(j: Json): Result<string> { if j.Text? then Ok(j.s) else Err(BadJson) }

  /** An absent or empty identifier is no identifier. */
  function OptionalText(j: Json): Result<Option<string>>
  {
    match j
    case Null => Ok(None)
    case Text(s) => Ok(if s == "" then None else Some(s))
    case _ => Err(BadJson)
  }

  function Truncate(r: real): int { if r >= 0.0 then r.Floor else -(-r).Floor }

  function AsInt(j: Json): Result<int>
  {
    match j
    case Int(i) => Ok(i)
    case Real(r) => Ok(Truncate(r))
    case Bool(b) => Ok(if b then 1 else 0)
    case _ => Err(BadJson)
  }

  function OptionalInt(j: Json): Result<Option<int>>
  {
    if j.Null? then Ok(None)
    else
      var i :- AsInt(j);
      Ok(Some(i))
  }

  function AsReal(j: Json): Result<real>
  {
    match j
    case Int(i) => Ok(i as real)
    case Real(r) => Ok(r)
    case Bool(b) => Ok(if b then 1.0 else 0.0)
    case _ => Err(BadJson)
  }

  function AsBool(j: Json): Result<bool> { if j.Bool? then Ok(j.b) else Err(BadJson) }

  /** Coordinates within tolerance of the unit cube, clamped to it. */
  function DecodePoint(j: Json): Result<Point>
  {
    var _ :- Need(j.List? && |j.items| == 3, BadJson);
    var x :- AsReal(j.items[0]);
    var y :- AsReal(j.items[1]);
    var z :- AsReal(j.items[2]);
    var _ :- Need(NearUnitCube(Point(x, y, z)), BadJson);
    Ok(ClampPoint(Point(x, y, z)))
  }

  function DecodeAction(j: Json): Result<Action>
  {
    var s :- AsText(j);
    if s == "improved" then Ok(Improved)
    else if s == "expanded" then Ok(Expanded)
    else if s == "non_improvement" then Ok(NonImprovement)
    else if s == "contracted" then Ok(Contracted)
    else if s == "converged" then Ok(Converged)
    else if s == "resumed" then Ok(Resumed)
    else Err(BadJson)
  }

  function DecodeLabel(j: Json): Result<Option<Preference>>
  {
    if j.Null? then Ok(None)
    else
      var s :- AsText(j);
      if s == "new_better" then Ok(Some(NewBetter))
      else if s == "anchor_better" then Ok(Some(AnchorBetter))
      else if s == "tie" then Ok(Some(Tie))
      else Err(BadJson)
  }

  const OUTCOME_NAMES := {ActionName, Label, SuccessCount, FailureCount, CreatedAt}
  const MOVEMENT_NAMES := {CenterBefore, CenterAfter, LengthBefore, LengthAfter}
  const LIMIT_NAMES := {SuccessTolerance, FailureTolerance, MinimumLength, MaximumLength}
  const IDENTITY_NAMES := {ComparisonName, NewShotName, AnchorName, IncumbentShot, AfterComparison}
  const TRANSITION_NAMES := OUTCOME_NAMES + MOVEMENT_NAMES + LIMIT_NAMES + IDENTITY_NAMES

  const REGION_NAMES := {Center, Length, SuccessCount, FailureCount, RestartPending}

  const STATE_NAMES := {
    RunIdentifier, PreviousShot, IncumbentShot, Iteration, Region, ModelCheckpoint, TraceCheckpoint, RandomSeed,
    ConfigurationVersion, Name.PendingRecipe, Name.PendingAnchor, Name.PendingShot, PendingSuggestionJson, UpdatedAt}

  /** Every required member is there, and none besides the optional ones. */
  predicate Shaped(j: Json, required: set<Name>, optional: set<Name>)
  {
    j.Object? && required <= j.members.Keys <= required + optional
  }

  function Member(m: Members, name: Name, default: Json): Json { if name in m then m[name] else default }

  function DecodeIdentities(m: Members): Result<Identities>
  {
    var comparison :- OptionalText(Member(m, ComparisonName, Null));
    var newShot :- OptionalText(Member(m, NewShotName, Null));
    var anchor :- OptionalText(Member(m, AnchorName, Null));
    var incumbent :- OptionalText(Member(m, IncumbentShot, Null));
    var after :- OptionalText(Member(m, AfterComparison, Null));
    var control :- OptionalText(Member(m, ControlEvent, Null));
    Ok(Identities(comparison, newShot, anchor, incumbent, after, control))
  }

  function DecodeLimits(m: Members): Result<StoredLimits>
  {
    var minimum :- AsReal(Member(m, MinimumLength, Null));
    var maximum :- AsReal(Member(m, MaximumLength, Null));
    var successes :- AsInt(Member(m, SuccessTolerance, Null));
    var failures :- AsInt(Member(m, FailureTolerance, Null));
    Ok(StoredLimits(minimum, maximum, successes, failures))
  }

  datatype Movement = Movement(centerBefore: Point, centerAfter: Point, lengthBefore: real, lengthAfter: real)

  function DecodeMovement(m: Members): Result<Movement>
  {
    var centerBefore :- DecodePoint(Member(m, CenterBefore, Null));
    var centerAfter :- DecodePoint(Member(m, CenterAfter, Null));
    var lengthBefore :- AsReal(Member(m, LengthBefore, Null));
    var lengthAfter :- AsReal(Member(m, LengthAfter, Null));
    Ok(Movement(centerBefore, centerAfter, lengthBefore, lengthAfter))
  }

  function DecodeTransition(j: Json): Result<StoredTransition>
  {
    var _ :- Need(Shaped(j, TRANSITION_NAMES, {ControlEvent}), BadJson);
    var m := j.members;
    var action :- DecodeAction(Member(m, ActionName, Null));
    var preference :- DecodeLabel(Member(m, Label, Null));
    var moved :- DecodeMovement(m);
    var successes :- AsInt(Member(m, SuccessCount, Null));
    var failures :- AsInt(Member(m, FailureCount, Null));
    var limits :- DecodeLimits(m);
    var ids :- DecodeIdentities(m);
    var createdAt :- OptionalInt(Member(m, CreatedAt, Null));
    var t := StoredTransition(action, preference, moved.centerBefore, moved.centerAfter, moved.lengthBefore, moved.lengthAfter,
                              successes, failures, limits, ids, createdAt);
    var _ :- Need(ValidTransition(t), BadJson);
    Ok(t)
  }

  function DecodeTransitions(items: seq<Json>): Result<seq<StoredTransition>>
  {
    if items == [] then Ok([])
    else
      var earlier :- DecodeTransitions(items[..|items| - 1]);
      var t :- DecodeTransition(items[|items| - 1]);
      Ok(earlier + [t])
  }

  /** Rows written before convergence and the audit trail existed decode as unconverged with no history. */
  function DecodeRegion(j: Json): Result<StoredRegion>
  {
    var _ :- Need(Shaped(j, REGION_NAMES, {LocallyConvergedFlag, Transitions}), BadJson);
    var m := j.members;
    var items := Member(m, Transitions, List([]));
    var _ :- Need(items.List?, BadJson);
    var center :- DecodePoint(Member(m, Center, Null));
    var length :- AsReal(Member(m, Length, Null));
    var successes :- AsInt(Member(m, SuccessCount, Null));
    var failures :- AsInt(Member(m, FailureCount, Null));
    var restart :- AsBool(Member(m, RestartPending, Null));
    var converged :- AsBool(Member(m, LocallyConvergedFlag, Bool(false)));
    var transitions :- DecodeTransitions(items.items);
    var r := StoredRegion(center, length, successes, failures, restart, converged, transitions);
    var _ :- Need(ValidRegion(r), BadJson);
    Ok(r)
  }

  function DecodeProgress(m: Members): Result<Progress>
  {
    var previous :- OptionalText(Member(m, PreviousShot, Null));
    var incumbent :- OptionalText(Member(m, IncumbentShot, Null));
    var model :- OptionalText(Member(m, ModelCheckpoint, Null));
    var trace :- OptionalText(Member(m, TraceCheckpoint, Null));
    Ok(Progress(previous, incumbent, model, trace))
  }

  function DecodeWork(m: Members): Result<Work>
  {
    var recipe :- OptionalText(Member(m, Name.PendingRecipe, Null));
    var anchor :- OptionalText(Member(m, Name.PendingAnchor, Null));
    var shot :- OptionalText(Member(m, Name.PendingShot, Null));
    var suggestion :- OptionalText(Member(m, PendingSuggestionJson, Null));
    Ok(Work(recipe, anchor, shot, suggestion))
  }

  function DecodeState(j: Json): Result<StoredState>
  {
    var _ :- Need(Shaped(j, STATE_NAMES, {}), BadJson);
    DecodeStateMembers(j.members)
  }

  function DecodeStateMembers(m: Members): Result<StoredState>
  {
    var run :- AsText(Member(m, RunIdentifier, Null));
    var progress :- DecodeProgress(m);
    var iteration :- AsInt(Member(m, Iteration, Null));
    var region :- DecodeRegion(Member(m, Region, Null));
    var seed :- AsInt(Member(m, RandomSeed, Null));
    var configuration :- AsText(Member(m, ConfigurationVersion, Null));
    var work :- DecodeWork(m);
    var updatedAt :- AsInt(Member(m, UpdatedAt, Null));
    var s := StoredState(run, progress, iteration, region, seed, configuration, work, updatedAt);
    var _ :- Need(ValidState(s), BadJson);
    Ok(s)
  }

  // ----- runs -----

  const CONTEXT_TEXTS := {Bean, Grinder, Profile, RawProfileHash, Basket, Water, User, TemperatureProfile, PressureProfile}

  /** The basket identifier that was once manufactured from a constant instead of measured. */
  const MANUFACTURED_BASKET := "basket_ml:18"

  /** Who a run is for; only the context texts that are set are listed. */
  datatype Context = Context(install: string, machine: string, texts: map<Name, string>, goal: Json)

  datatype StoredRun = StoredRun(id: string, context: Context, mode: Mode, space: Json, createdAt: int, configuration: string, active: bool)

  const RUN_NAMES := {RunIdentifier, RunContext, ComparisonMode, SpaceName, CreatedAt, ConfigurationVersion, ActiveFlag}

  predicate ValidContext(c: Context)
  {
    && !Blank(c.install) && !Blank(c.machine) && |c.install| <= 256 && |c.machine| <= 256
    && c.texts.Keys <= CONTEXT_TEXTS
    && (Profile in c.texts ==> RawProfileHash !in c.texts)
    && forall name :: name in c.texts ==> |c.texts[name]| <= 256
  }

  predicate ValidRun(r: StoredRun) { !Blank(r.id) && ValidContext(r.context) && r.createdAt >= 0 && !Blank(r.configuration) }

  function EncodeContext(c: Context): Json
  {
    Object((map name | name in CONTEXT_TEXTS :: if name in c.texts then Text(c.texts[name]) else Null)
      [Install := Text(c.install)][Machine := Text(c.machine)][TasteGoal := c.goal])
  }

  function ModeText(m: Mode): string { if m.GlobalPrevious? then "global_previous" else "best_incumbent" }

  function EncodeRun(r: StoredRun): Json
  {
    Object(map[RunIdentifier := Text(r.id), RunContext := EncodeContext(r.context), ComparisonMode := Text(ModeText(r.mode)), SpaceName := r.space,
               CreatedAt := Int(r.createdAt), ConfigurationVersion := Text(r.configuration), ActiveFlag := Bool(r.active)])
  }

  function DecodeMode(j: Json): Result<Mode>
  {
    var s :- AsText(j);
    if s == "global_previous" then Ok(GlobalPrevious) else if s == "best_incumbent" then Ok(BestIncumbent) else Err(BadJson)
  }

  /** Drops the manufactured basket. */
  function Measured(m: Members): Members
  {
    if Basket in m && m[Basket] == Text(MANUFACTURED_BASKET) then m[Basket := Null] else m
  }

  function TextsOf(m: Members): map<Name, string>
  {
    map name | name in CONTEXT_TEXTS && name in m && m[name].Text? :: m[name].s
  }

  /** A profile identifier makes the hash of the raw profile redundant. */
  function WithoutHash(texts: map<Name, string>): map<Name, string>
  {
    if Profile in texts then texts - {RawProfileHash} else texts
  }

  function DecodeContext(j: Json): Result<Context>
  {
    var _ :- Need(j.Object?, BadJson);
    var m := Measured(j.members);
    var install :- AsText(Member(m, Install, Null));
    var machine :- AsText(Member(m, Machine, Null));
    var _ :- Need(forall name :: name in CONTEXT_TEXTS && name in m ==> m[name].Text? || m[name].Null?, BadJson);
    var c := Context(install, machine, WithoutHash(TextsOf(m)), Member(m, TasteGoal, Null));
    var _ :- Need(ValidContext(c), BadJson);
    Ok(c)
  }

  function DecodeRun(j: Json): Result<StoredRun>
  {
    var _ :- Need(Shaped(j, RUN_NAMES, {}), BadJson);
    var m := j.members;
    var context :- DecodeContext(Member(m, RunContext, Null));
    var id :- AsText(Member(m, RunIdentifier, Null));
    var mode :- DecodeMode(Member(m, ComparisonMode, Null));
    var createdAt :- AsInt(Member(m, CreatedAt, Null));
    var configuration :- AsText(Member(m, ConfigurationVersion, Null));
    var active :- AsBool(Member(m, ActiveFlag, Null));
    var r := StoredRun(id, context, mode, Member(m, SpaceName, Null), createdAt, configuration, active);
    var _ :- Need(ValidRun(r), BadJson);
    Ok(r)
  }

  // ----- laws -----

  predicate Says(m: Members, name: Name, j: Json) { name in m && m[name] == j }

  predicate SaysIdentities(m: Members, ids: Identities)
  {
    && Says(m, ComparisonName, TextOrNull(ids.comparison)) && Says(m, NewShotName, TextOrNull(ids.newShot))
    && Says(m, AnchorName, TextOrNull(ids.anchor)) && Says(m, IncumbentShot, TextOrNull(ids.incumbent))
    && Says(m, AfterComparison, TextOrNull(ids.after)) && Says(m, ControlEvent, TextOrNull(ids.control))
  }

  predicate SaysOutcome(m: Members, t: StoredTransition)
  {
    && Says(m, ActionName, Text(ActionText(t.action)))
    && Says(m, Label, if t.preference.Some? then Text(PreferenceText(t.preference.value)) else Null)
    && Says(m, SuccessCount, Int(t.successCount)) && Says(m, FailureCount, Int(t.failureCount))
    && Says(m, CreatedAt, IntOrNull(t.createdAt))
  }

  predicate SaysMovement(m: Members, t: StoredTransition)
  {
    && Says(m, CenterBefore, EncodePoint(t.centerBefore)) && Says(m, CenterAfter, EncodePoint(t.centerAfter))
    && Says(m, LengthBefore, Real(t.lengthBefore)) && Says(m, LengthAfter, Real(t.lengthAfter))
  }

  predicate SaysLimits(m: Members, l: StoredLimits)
  {
    && Says(m, MinimumLength, Real(l.minimum)) && Says(m, MaximumLength, Real(l.maximum))
    && Says(m, SuccessTolerance, Int(l.successTolerance)) && Says(m, FailureTolerance, Int(l.failureTolerance))
  }

  /** The members that encode a transition. */
  predicate SaysTransition(m: Members, t: StoredTransition)
  {
    && m.Keys == TRANSITION_NAMES + {ControlEvent}
    && SaysOutcome(m, t) && SaysMovement(m, t) && SaysLimits(m, t.limits) && SaysIdentities(m, t.ids)
  }

  lemma EncodedParts(t: StoredTransition)
    ensures EncodeOutcome(t).Keys == OUTCOME_NAMES && SaysOutcome(EncodeOutcome(t), t)
    ensures EncodeMovement(t).Keys == MOVEMENT_NAMES && SaysMovement(EncodeMovement(t), t)
    ensures EncodeLimits(t.limits).Keys == LIMIT_NAMES
    ensures SaysLimits(EncodeLimits(t.limits), t.limits)
    ensures EncodeIdentities(t.ids).Keys == IDENTITY_NAMES + {ControlEvent}
    ensures SaysIdentities(EncodeIdentities(t.ids), t.ids)
  {
  }

  lemma EncodedTransition(t: StoredTransition)
    ensures EncodeTransition(t).Object? && SaysTransition(EncodeTransition(t).members, t)
  {
    EncodedParts(t);
    TransitionSays(EncodeOutcome(t), EncodeMovement(t), EncodeLimits(t.limits), EncodeIdentities(t.ids), t);
  }

  /** Members of two objects without a common name keep what they say when put together. */
  lemma TogetherSay(a: Members, b: Members)
    requires a.Keys !! b.Keys
    ensures (a + b).Keys == a.Keys + b.Keys
    ensures forall name, j :: Says(a, name, j) ==> Says(a + b, name, j)
    ensures forall name, j :: Says(b, name, j) ==> Says(a + b, name, j)
  {
  }

  lemma NamesAreApart()
    ensures OUTCOME_NAMES !! MOVEMENT_NAMES
    ensures OUTCOME_NAMES + MOVEMENT_NAMES !! LIMIT_NAMES
    ensures OUTCOME_NAMES + MOVEMENT_NAMES + LIMIT_NAMES !! IDENTITY_NAMES + {ControlEvent}
  {
  }

  lemma TransitionSays(outcome: Members, movement: Members, limits: Members, ids: Members, t: StoredTransition)
    requires SaysOutcome(outcome, t) && outcome.Keys == OUTCOME_NAMES
    requires SaysMovement(movement, t) && movement.Keys == MOVEMENT_NAMES
    requires SaysLimits(limits, t.limits) && limits.Keys == LIMIT_NAMES
    requires SaysIdentities(ids, t.ids) && ids.Keys == IDENTITY_NAMES + {ControlEvent}
    ensures SaysTransition(outcome + movement + limits + ids, t)
  {
    NamesAreApart();
    TogetherSay(outcome, movement);
    TogetherSay(outcome + movement, limits);
    TogetherSay(outcome + movement + limits, ids);
  }

  lemma PointRoundTrip(p: Point)
    requires InUnitCube(p)
    ensures DecodePoint(EncodePoint(p)) == Ok(p)
  {
    var j := EncodePoint(p);
    assert AsReal(j.items[0]) == Ok(p.x) && AsReal(j.items[1]) == Ok(p.y) && AsReal(j.items[2]) == Ok(p.z);
    assert NearUnitCube(p) && ClampPoint(p) == p;
  }

  lemma NamesRoundTrip(a: Action, p: Option<Preference>)
    ensures DecodeAction(Text(ActionText(a))) == Ok(a)
    ensures DecodeLabel(if p.Some? then Text(PreferenceText(p.value)) else Null) == Ok(p)
  {
  }

  lemma IdentifierRoundTrip(s: Option<string>)
    ensures OptionalText(TextOrNull(s)) == if s == Some("") then Ok(None) else Ok(s)
  {
  }

  lemma IdentitiesDecode(m: Members, ids: Identities)
    requires SaysIdentities(m, ids)
    requires Identifier(ids.comparison) && Identifier(ids.newShot) && Identifier(ids.anchor)
    requires Identifier(ids.incumbent) && Identifier(ids.after) && Identifier(ids.control)
    ensures DecodeIdentities(m) == Ok(ids)
  {
    IdentifierRoundTrip(ids.comparison);
    IdentifierRoundTrip(ids.newShot);
    IdentifierRoundTrip(ids.anchor);
    IdentifierRoundTrip(ids.incumbent);
    IdentifierRoundTrip(ids.after);
    IdentifierRoundTrip(ids.control);
  }

  lemma MovementDecodes(m: Members, t: StoredTransition)
    requires SaysMovement(m, t) && InUnitCube(t.centerBefore) && InUnitCube(t.centerAfter)
    ensures DecodeMovement(m) == Ok(Movement(t.centerBefore, t.centerAfter, t.lengthBefore, t.lengthAfter))
  {
    PointRoundTrip(t.centerBefore);
    PointRoundTrip(t.centerAfter);
  }

  lemma LimitsDecode(m: Members, l: StoredLimits)
    requires SaysLimits(m, l)
    ensures DecodeLimits(m) == Ok(l)
  {
  }

  lemma TransitionDecodes(j: Json, t: StoredTransition)
    requires j.Object? && SaysTransition(j.members, t) && ValidTransition(t)
    ensures DecodeTransition(j) == Ok(t)
  {
    NamesRoundTrip(t.action, t.preference);
    MovementDecodes(j.members, t);
    LimitsDecode(j.members, t.limits);
    IdentitiesDecode(j.members, t.ids);
  }

  lemma TransitionRoundTrip(t: StoredTransition)
    requires ValidTransition(t)
    ensures DecodeTransition(EncodeTransition(t)) == Ok(t)
  {
    EncodedTransition(t);
    TransitionDecodes(EncodeTransition(t), t);
  }

  lemma {:induction false} TransitionsRoundTrip(ts: seq<StoredTransition>)
    requires forall i :: 0 <= i < |ts| ==> ValidTransition(ts[i])
    ensures DecodeTransitions(EncodeTransitions(ts)) == Ok(ts)
  {
    if ts != [] {
      var init, last := ts[..|ts| - 1], ts[|ts| - 1];
      TransitionsRoundTrip(init);
      TransitionRoundTrip(last);
      DecodedSnoc(EncodeTransitions(init), EncodeTransition(last), init, last);
      assert init + [last] == ts;
    }
  }

  lemma DecodedSnoc(items: seq<Json>, j: Json, ts: seq<StoredTransition>, t: StoredTransition)
    requires DecodeTransitions(items) == Ok(ts) && DecodeTransition(j) == Ok(t)
    ensures DecodeTransitions(items + [j]) == Ok(ts + [t])
  {
    assert (items + [j])[..|items|] == items;
  }

  /** The members of a region that were always written. */
  predicate SaysRegion(m: Members, r: StoredRegion)
  {
    && REGION_NAMES <= m.Keys <= REGION_NAMES + {LocallyConvergedFlag, Transitions}
    && Says(m, Center, EncodePoint(r.center)) && Says(m, Length, Real(r.length))
    && Says(m, SuccessCount, Int(r.successCount)) && Says(m, FailureCount, Int(r.failureCount))
    && Says(m, RestartPending, Bool(r.restartPending))
  }

  lemma RegionDecodes(j: Json, r: StoredRegion)
    requires j.Object? && SaysRegion(j.members, r) && ValidRegion(r)
    requires Member(j.members, LocallyConvergedFlag, Bool(false)) == Bool(r.locallyConverged)
    requires Member(j.members, Transitions, List([])) == List(EncodeTransitions(r.transitions))
    ensures DecodeRegion(j) == Ok(r)
  {
    PointRoundTrip(r.center);
    TransitionsRoundTrip(r.transitions);
  }

  lemma EncodedRegion(r: StoredRegion)
    ensures var m := EncodeRegion(r).members;
      && m.Keys == REGION_NAMES + {LocallyConvergedFlag, Transitions} && SaysRegion(m, r)
      && Says(m, LocallyConvergedFlag, Bool(r.locallyConverged)) && Says(m, Transitions, List(EncodeTransitions(r.transitions)))
  {
  }

  lemma RegionRoundTrip(r: StoredRegion)
    requires ValidRegion(r)
    ensures DecodeRegion(EncodeRegion(r)) == Ok(r)
  {
    EncodedRegion(r);
    RegionDecodes(EncodeRegion(r), r);
  }

  lemma LegacyDecodes(m: Members, r: StoredRegion)
    requires ValidRegion(r) && SaysRegion(m, r)
    ensures DecodeRegion(Object(m - {LocallyConvergedFlag, Transitions})) == Ok(r.(locallyConverged := false, transitions := []))
  {
    var legacy := m - {LocallyConvergedFlag, Transitions};
    assert legacy.Keys == REGION_NAMES;
    assert SaysRegion(legacy, r);
    RegionDecodes(Object(legacy), r.(locallyConverged := false, transitions := []));
  }

  /** Rows written without the later members decode as what they say, unconverged and without history. */
  lemma LegacyRegion(r: StoredRegion)
    requires ValidRegion(r)
    ensures DecodeRegion(Object(EncodeRegion(r).members - {LocallyConvergedFlag, Transitions}))
         == Ok(r.(locallyConverged := false, transitions := []))
  {
    EncodedRegion(r);
    LegacyDecodes(EncodeRegion(r).members, r);
  }

  /** No identifier of the state is the empty text. */
  predicate NonEmpty(s: StoredState)
  {
    && s.progress.previous != Some("") && s.progress.incumbent != Some("") && s.progress.model != Some("") && s.progress.trace != Some("")
    && s.work.recipe != Some("") && s.work.anchor != Some("") && s.work.shot != Some("") && s.work.suggestion != Some("")
  }

  predicate SaysProgress(m: Members, p: Progress)
  {
    && Says(m, PreviousShot, TextOrNull(p.previous)) && Says(m, IncumbentShot, TextOrNull(p.incumbent))
    && Says(m, ModelCheckpoint, TextOrNull(p.model)) && Says(m, TraceCheckpoint, TextOrNull(p.trace))
  }

  predicate SaysWork(m: Members, w: Work)
  {
    && Says(m, Name.PendingRecipe, TextOrNull(w.recipe)) && Says(m, Name.PendingAnchor, TextOrNull(w.anchor))
    && Says(m, Name.PendingShot, TextOrNull(w.shot)) && Says(m, PendingSuggestionJson, TextOrNull(w.suggestion))
  }

  predicate SaysState(m: Members, s: StoredState)
  {
    && m.Keys == STATE_NAMES && SaysProgress(m, s.progress) && SaysWork(m, s.work)
    && Says(m, RunIdentifier, Text(s.run)) && Says(m, Iteration, Int(s.iteration)) && Says(m, Region, EncodeRegion(s.region))
    && Says(m, RandomSeed, Int(s.seed)) && Says(m, ConfigurationVersion, Text(s.configuration)) && Says(m, UpdatedAt, Int(s.updatedAt))
  }

  lemma EncodedState(s: StoredState)
    ensures EncodeState(s).Object? && SaysState(EncodeState(s).members, s)
  {
    assert EncodeState(s).members.Keys == STATE_NAMES;
  }

  function Kept(s: Option<string>): Option<string> { if s == Some("") then None else s }

  lemma ProgressDecodes(m: Members, p: Progress)
    requires SaysProgress(m, p)
    ensures DecodeProgress(m) == Ok(Progress(Kept(p.previous), Kept(p.incumbent), Kept(p.model), Kept(p.trace)))
  {
    IdentifierRoundTrip(p.previous);
    IdentifierRoundTrip(p.incumbent);
    IdentifierRoundTrip(p.model);
    IdentifierRoundTrip(p.trace);
  }

  lemma WorkDecodes(m: Members, w: Work)
    requires SaysWork(m, w)
    ensures DecodeWork(m) == Ok(Work(Kept(w.recipe), Kept(w.anchor), Kept(w.shot), Kept(w.suggestion)))
  {
    IdentifierRoundTrip(w.recipe);
    IdentifierRoundTrip(w.anchor);
    IdentifierRoundTrip(w.shot);
    IdentifierRoundTrip(w.suggestion);
  }

  /** What is left of a state when empty identifiers are dropped. */
  function Stripped(s: StoredState): StoredState
  {
    s.(progress := Progress(Kept(s.progress.previous), Kept(s.progress.incumbent), Kept(s.progress.model), Kept(s.progress.trace)),
       work := Work(Kept(s.work.recipe), Kept(s.work.anchor), Kept(s.work.shot), Kept(s.work.suggestion)))
  }

  lemma StateDecodes(j: Json, s: StoredState)
    requires j.Object? && SaysState(j.members, s) && ValidRegion(s.region)
    ensures DecodeState(j) == if ValidState(Stripped(s)) then Ok(Stripped(s)) else Err(BadJson)
  {
    RegionRoundTrip(s.region);
    ProgressDecodes(j.members, s.progress);
    WorkDecodes(j.members, s.work);
  }

  lemma StrippedIsSame(s: StoredState)
    ensures Stripped(s) == s <==> NonEmpty(s)
  {
    assert Stripped(s) == s <==> Stripped(s).progress == s.progress && Stripped(s).work == s.work;
  }

  /** Decoding undoes encoding for a valid state of any history length exactly when no identifier is the empty text,
      which would come back as absent. */
  lemma StateRoundTrip(s: StoredState)
    requires ValidState(s)
    ensures DecodeState(EncodeState(s)) == Ok(s) <==> NonEmpty(s)
  {
    EncodedState(s);
    StateDecodes(EncodeState(s), s);
    StrippedIsSame(s);
  }

  lemma DecodedState(j: Json)
    requires DecodeState(j).Ok?
    ensures ValidState(DecodeState(j).value) && NonEmpty(DecodeState(j).value)
  {
    DecodedParts(j.members);
    DecodedIsValid(j.members);
    DecodedProgress(j.members);
    DecodedWork(j.members);
  }

  lemma DecodedParts(m: Members)
    requires DecodeStateMembers(m).Ok?
    ensures var s := DecodeStateMembers(m).value;
      DecodeProgress(m) == Ok(s.progress) && DecodeWork(m) == Ok(s.work)
  {
  }

  lemma DecodedIsValid(m: Members)
    requires DecodeStateMembers(m).Ok?
    ensures ValidState(DecodeStateMembers(m).value)
  {
  }

  lemma DecodedProgress(m: Members)
    requires DecodeProgress(m).Ok?
    ensures var p := DecodeProgress(m).value; p.previous != Some("") && p.incumbent != Some("") && p.model != Some("") && p.trace != Some("")
  {
  }

  lemma DecodedWork(m: Members)
    requires DecodeWork(m).Ok?
    ensures var w := DecodeWork(m).value; w.recipe != Some("") && w.anchor != Some("") && w.shot != Some("") && w.suggestion != Some("")
  {
  }

  /** What can be read at all, legacy rows included, is a valid state and survives being stored and read again. */
  lemma ReadingIsIdempotent(j: Json)
    requires DecodeState(j).Ok?
    ensures ValidState(DecodeState(j).value)
    ensures DecodeState(EncodeState(DecodeState(j).value)) == DecodeState(j)
  {
    DecodedState(j);
    StateRoundTrip(DecodeState(j).value);
  }

  predicate Manufactured(c: Context) { Basket in c.texts && c.texts[Basket] == MANUFACTURED_BASKET }

  lemma EncodedContext(c: Context)
    requires ValidContext(c)
    ensures var m := EncodeContext(c).members;
      && Says(m, Install, Text(c.install)) && Says(m, Machine, Text(c.machine)) && Says(m, TasteGoal, c.goal)
      && forall name :: name in CONTEXT_TEXTS ==> Says(m, name, if name in c.texts then Text(c.texts[name]) else Null)
  {
  }

  lemma ContextDecodes(j: Json, c: Context)
    requires j.Object? && ValidContext(c) && !Manufactured(c)
    requires Says(j.members, Install, Text(c.install)) && Says(j.members, Machine, Text(c.machine)) && Says(j.members, TasteGoal, c.goal)
    requires forall name :: name in CONTEXT_TEXTS ==> Says(j.members, name, if name in c.texts then Text(c.texts[name]) else Null)
    ensures DecodeContext(j) == Ok(c)
  {
    assert Says(j.members, Basket, if Basket in c.texts then Text(c.texts[Basket]) else Null);
    assert Measured(j.members) == j.members;
    assert TextsOf(j.members) == c.texts;
    assert WithoutHash(c.texts) == c.texts;
  }

  lemma ContextRoundTrip(c: Context)
    requires ValidContext(c) && !Manufactured(c)
    ensures DecodeContext(EncodeContext(c)) == Ok(c)
  {
    EncodedContext(c);
    ContextDecodes(EncodeContext(c), c);
  }

  lemma DecodedContext(j: Json)
    requires DecodeContext(j).Ok?
    ensures ValidContext(DecodeContext(j).value) && !Manufactured(DecodeContext(j).value)
  {
  }

  predicate SaysRun(m: Members, r: StoredRun)
  {
    && m.Keys == RUN_NAMES && Says(m, RunIdentifier, Text(r.id)) && Says(m, RunContext, EncodeContext(r.context))
    && Says(m, ComparisonMode, Text(ModeText(r.mode))) && Says(m, SpaceName, r.space) && Says(m, CreatedAt, Int(r.createdAt))
    && Says(m, ConfigurationVersion, Text(r.configuration)) && Says(m, ActiveFlag, Bool(r.active))
  }

  lemma EncodedRun(r: StoredRun)
    ensures EncodeRun(r).Object? && SaysRun(EncodeRun(r).members, r)
  {
    assert EncodeRun(r).members.Keys == RUN_NAMES;
  }

  lemma ModeRoundTrip(m: Mode)
    ensures DecodeMode(Text(ModeText(m))) == Ok(m)
  {
  }

  lemma RunDecodes(j: Json, r: StoredRun)
    requires j.Object? && SaysRun(j.members, r) && ValidRun(r)
    ensures DecodeRun(j) == Ok(r) <==> !Manufactured(r.context)
  {
    ModeRoundTrip(r.mode);
    if !Manufactured(r.context) {
      ContextRoundTrip(r.context);
    } else if DecodeContext(EncodeContext(r.context)).Ok? {
      DecodedContext(EncodeContext(r.context));
    }
  }

  /** Decoding undoes encoding for a valid run exactly when its basket is not the manufactured one. */
  lemma RunRoundTrip(r: StoredRun)
    requires ValidRun(r)
    ensures DecodeRun(EncodeRun(r)) == Ok(r) <==> !Manufactured(r.context)
  {
    EncodedRun(r);
    RunDecodes(EncodeRun(r), r);
  }

  /** The basket migration happens once: what was decoded survives being stored and read again. */
  lemma RunMigrationIsIdempotent(j: Json)
    requires DecodeRun(j).Ok?
    ensures DecodeRun(EncodeRun(DecodeRun(j).value)) == DecodeRun(j)
  {
    DecodedRun(j);
    RunRoundTrip(DecodeRun(j).value);
  }

  lemma DecodedRun(j: Json)
    requires DecodeRun(j).Ok?
    ensures ValidRun(DecodeRun(j).value) && !Manufactured(DecodeRun(j).value.context)
  {
    DecodedContext(Member(j.members, RunContext, Null));
  }
}
