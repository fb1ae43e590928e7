/** The optimizer's own checks on the evidence it is given, and the shape of what it proposes. */
module Engine {
  import opened Prelude
  import opened RecipeSpace
  import opened Cpbo
  import opened TrustRegions
  import opened History
  import opened Ledgers

  /** What inference and acquisition select; None when the numerical fit fails. */
  datatype Proposal = Proposal(id: SuggestionId, controls: Triple, model: nat, trace: Option<nat>)

  datatype Computation = Computation(suggestion: Suggestion, model: nat, trace: Option<nat>)

  function ShotById(shots: seq<Shot>): map<ShotId, Shot>
  {
    if shots == [] then map[] else ShotById(shots[..|shots| - 1])[shots[|shots| - 1].id := shots[|shots| - 1]]
  }

  /** The stored recipe of a shot is the one its observation stands for. */
  function ValidateObservation(space: Space, rows: RecipeRows, shot: Shot): Result<()>
    requires shot.recipe in rows
  {
    match shot.observed
    case None => Need(NearUnitCube(rows[shot.recipe].position), ObservationDiffers)
    case Some(t) =>
      var canonical :- Observe(space, t, rows[shot.recipe].createdAt);
      Need(canonical.id == shot.recipe, ObservationDiffers)
  }

  /** The checks on rows i and later, walking forward with the anchors and shots met so far. */
  function ValidateHistory(run: RunId, shots: map<ShotId, Shot>, cs: seq<Comparison>, i: nat,
                           previous: ShotId, incumbent: ShotId, seen: set<ShotId>): Result<()>
    requires i <= |cs|
    decreases |cs| - i
  {
    if i == |cs| then Ok(())
    else
      var c := cs[i];
      var _ :- Need(c.run == run, BadHistory);
      var _ :- Need(c.newShot in shots && c.anchor in shots, BadHistory);
      var _ :- Need(shots[c.newShot].status.Valid? && shots[c.anchor].status.Valid?, BadHistory);
      var _ :- Need(c.newShot !in seen, BadHistory);
      var _ :- Need(c.anchor == if c.mode.GlobalPrevious? then previous else incumbent, BadHistory);
      var _ :- Need(shots[c.newShot].sequence > shots[c.anchor].sequence, BadHistory);
      ValidateHistory(run, shots, cs, i + 1, c.newShot,
                      if c.anchor == incumbent && c.preference.NewBetter? then c.newShot else incumbent, seen + {c.newShot})
  }

  function ValidateRunData(l: Ledger): Result<()>
  {
    var shots := ShotById(l.shots);
    var _ :- Need(forall i, j :: 0 <= i < j < |l.shots| ==> l.shots[i].id != l.shots[j].id, DuplicateRow);
    var _ :- Need(forall i :: 0 <= i < |l.shots| ==> l.shots[i].recipe in l.table.rows, MissingRecipe);
    var _ :- Need(forall i :: 0 <= i < |l.shots| ==> ValidateObservation(l.run.space, l.table.rows, l.shots[i]).Ok?, ObservationDiffers);
    match Baseline(l.shots)
    case None => Err(NoValidShot)
    case Some(base) =>
      var _ :- Need(forall i, j :: 0 <= i < j < |l.shots| ==> l.shots[i].sequence != l.shots[j].sequence, BadHistory);
      var _ :- ValidateHistory(l.run.id, shots, l.comparisons, 0, base, base, {});
      Need(RefersToValid(shots, l.state.previous) && RefersToValid(shots, l.state.incumbent), BadHistory)
  }

  predicate RefersToValid(shots: map<ShotId, Shot>, id: Option<ShotId>)
  {
    id.Some? ==> id.value in shots && shots[id.value].status.Valid?
  }

  function Suggest(configuration: nat, l: Ledger, proposal: Option<Proposal>, now: nat): Result<Computation>
  {
    var _ :- Need(l.run.configuration == configuration && l.state.configuration == configuration, ConfigurationDiffers);
    var _ :- Need(!(l.run.mode.BestIncumbent? && l.state.region.locallyConverged), LocallyConverged);
    var _ :- ValidateRunData(l);
    var _ :- Need(l.state.pendingRecipe.None?, SuggestionOpen);
    var anchor := if l.run.mode.GlobalPrevious? then l.state.previous else l.state.incumbent;
    var _ :- Need(anchor.Some?, NoValidShot);
    var _ :- Need(proposal.Some?, EngineFailed);
    var recipe :- Create(l.run.space, proposal.value.controls, now);
    Ok(Computation(Suggestion(proposal.value.id, recipe, anchor.value, l.run.mode, l.state.iteration + 1, now),
                   proposal.value.model, proposal.value.trace))
  }
}
