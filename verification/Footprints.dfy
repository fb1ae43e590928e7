/** What each use case writes into the rows it touches, that it touches no others, and what therefore stays over whole runs. */
module Footprints {
  import opened Prelude
  import opened RecipeSpace
  import opened Cpbo
  import opened TrustRegions
  import opened History
  import opened HistoryLaws
  import opened Ledgers
  import opened Service
  import opened Invariants
  import opened Frames
  import opened Runs
  import opened Stories
  import Engine

  // ----- stored shots -----

  /** What a use case that succeeds makes of a stored shot. */
  predicate Rewrites(s: Settings, l: Ledger, e: Event, a: Shot, b: Shot)
  {
    match e
    case Abstain(n, anchor, now) =>
      b == if a.id == n && a.abstention.None? then a.(abstention := Some(Abstention(anchor, now))) else a
    case Correct(id, controls, notes, _) =>
      if a.id != id then b == a
      else b == a.(recipe := RecipeId(l.run.space.version, QuantizeObserved(l.run.space, controls.recipe)),
                   observed := Some(controls.recipe), notes := a.notes + notes)
    case Exclude(id, _) => b == if a.id == id then a.(status := Excluded) else a
    case Meet(mode, _) => if FitOf(s, l, mode).Migrated? then IsRebased(s, l, a, b) else b == a
    case _ => b == a
  }

  /** The shot moved to the new limits: it stands for the recipe of its observation there, and keeps that observation. */
  predicate IsRebased(s: Settings, l: Ledger, a: Shot, b: Shot)
  {
    && a.recipe in l.table.rows && WithDomain(l.run.space, s.domain).Ok?
    && var observed := if a.observed.Some? then a.observed.value else l.table.rows[a.recipe].controls;
      b == a.(recipe := RecipeId(s.domain, QuantizeObserved(WithDomain(l.run.space, s.domain).value, observed)), observed := Some(observed))
  }

  /** The new shot of a report: valid or not, it is listed last with the executable recipe it stands for. */
  predicate IsNew(l: Ledger, r: ShotReport, b: Shot)
  {
    && QuantizeRecipe(l.run.space, r.controls.recipe).Ok?
    && var q := QuantizeRecipe(l.run.space, r.controls.recipe).value;
      b == Shot(r.id, RecipeId(l.run.space.version, q), |l.shots| + 1, r.status, Some(q), None, r.notes)
  }

  /** The shots after a use case that succeeded. */
  predicate ShotsAfter(s: Settings, l: Ledger, e: Event, m: Ledger)
  {
    && |m.shots| == (if e.Report? then |l.shots| + 1 else |l.shots|)
    && (forall i :: 0 <= i < |l.shots| ==> Rewrites(s, l, e, l.shots[i], m.shots[i]))
    && (e.Report? ==> IsNew(l, e.report, m.shots[|l.shots|]))
  }

  lemma OneShotChanged(shots: seq<Shot>, i: nat, b: Shot)
    requires ShotRows(shots) && i < |shots|
    ensures forall k :: 0 <= k < |shots| ==> (shots[k].id == shots[i].id <==> k == i) && shots[i := b][k] == if k == i then b else shots[k]
  {
  }

  lemma AbstentionWrites(s: Settings, l: Ledger, n: ShotId, anchor: ShotId, now: nat)
    requires Inv(l) && RecordAbstention(l, n, anchor, now).Ok?
    ensures ShotsAfter(s, l, Abstain(n, anchor, now), RecordAbstention(l, n, anchor, now).value)
  {
    var i := AbstentionParts(l, n, anchor, now);
    OneShotChanged(l.shots, i, l.shots[i].(abstention := Some(Abstention(anchor, now))));
  }

  lemma ReportWrites(s: Settings, l: Ledger, r: ShotReport, deviate: bool, now: nat)
    requires RecordShot(l, r, deviate, now).Ok?
    ensures ShotsAfter(s, l, Report(r, deviate, now), RecordShot(l, r, deviate, now).value.0)
  {
    RecordedParts(l, r, deviate, now);
    ReportedShot(l, r, deviate, now);
  }

  lemma ReportedShot(l: Ledger, r: ShotReport, deviate: bool, now: nat)
    requires RecordShot(l, r, deviate, now).Ok?
    ensures IsNew(l, r, RecordShot(l, r, deviate, now).value.1)
  {
  }

  lemma CorrectionWrites(s: Settings, l: Ledger, id: ShotId, controls: Controls, notes: map<nat, nat>, now: nat)
    requires Inv(l) && CorrectShot(s, l, id, controls, notes, now).Ok?
    ensures ShotsAfter(s, l, Correct(id, controls, notes, now), CorrectShot(s, l, id, controls, notes, now).value.0)
  {
    var i, recipe := CorrectionParts(s, l, id, controls, notes, now);
    OneShotChanged(l.shots, i, CorrectShot(s, l, id, controls, notes, now).value.1.shot);
    ObservedIs(l.run, controls, l.table.rows[l.shots[i].recipe].createdAt);
  }

  lemma ObservedIs(run: Run, controls: Controls, createdAt: nat)
    requires ObservationRecipe(run, controls, createdAt).Ok?
    ensures ObservationRecipe(run, controls, createdAt).value.id == RecipeId(run.space.version, QuantizeObserved(run.space, controls.recipe))
  {
  }

  lemma ExclusionWrites(s: Settings, l: Ledger, id: ShotId, now: nat)
    requires Inv(l) && ExcludeShot(s, l, id, now).Ok?
    ensures ShotsAfter(s, l, Exclude(id, now), ExcludeShot(s, l, id, now).value)
  {
    if FindShot(l.shots, id).value.status.Excluded? {
      var i := FoundShot(l.shots, id);
      OneShotChanged(l.shots, i, l.shots[i]);
    } else {
      var i, rows := ExclusionParts(s, l, id, now);
      ExcludedShots(s, l, ExcludeShot(s, l, id, now).value, i, rows, now);
    }
  }

  lemma ExcludedShots(s: Settings, l: Ledger, m: Ledger, i: nat, rows: RecipeRows, now: nat)
    requires ShotRows(l.shots) && ShotExcluded(s, l, m, i, rows, now)
    ensures ShotsAfter(s, l, Exclude(l.shots[i].id, now), m)
  {
    OneShotChanged(l.shots, i, l.shots[i].(status := Excluded));
  }

  lemma MeetingWrites(s: Settings, l: Ledger, mode: Option<Mode>, now: nat)
    requires Inv(l) && CompatibleRun(s, l, mode, now).Ok?
    ensures ShotsAfter(s, l, Meet(mode, now), CompatibleRun(s, l, mode, now).value)
  {
    if FitOf(s, l, mode).Migrated? {
      var desired := if mode.Some? then mode.value else l.run.mode;
      MigrationWrites(s, l, desired, now, MigrateRun(s, l, desired, now).value);
    } else {
      MeetFrame(s, l, mode, now);
    }
  }

  lemma MigrationWrites(s: Settings, l: Ledger, mode: Mode, now: nat, m: Ledger)
    requires ShotRows(l.shots) && MigrateRun(s, l, mode, now) == Ok(m)
    ensures |m.shots| == |l.shots| && forall i :: 0 <= i < |l.shots| ==> IsRebased(s, l, l.shots[i], m.shots[i])
  {
    var space, rebased, state := MigrationParts(s, l, mode, now);
    RebasedShots(space, l.table, l.shots);
    forall i | 0 <= i < |l.shots|
      ensures IsRebased(s, l, l.shots[i], m.shots[i])
    {
      RebasedAt(space, l.table, l.shots, i);
    }
  }

  /** Every use case writes exactly this into the shots; one that raises writes nothing. */
  lemma StepWritesShots(x: Session, e: Event)
    requires Inv(x.ledger) && Allowed(x, e)
    ensures if Attempt(x.settings, x.ledger, e).Ok? then ShotsAfter(x.settings, x.ledger, e, Step(x, e).ledger) else Step(x, e).ledger == x.ledger
  {
    var s, l := x.settings, x.ledger;
    if Attempt(s, l, e).Ok? {
      match e
      case Suggest(p, now) => SuggestFrame(s, l, p, now);
      case Report(r, deviate, now) => ReportWrites(s, l, r, deviate, now);
      case Abstain(n, a, now) => AbstentionWrites(s, l, n, a, now);
      case Prefer(j, id, now) => JudgeFrame(s, l, j, id, now);
      case Reopen(control, now) => ResumeFrame(s, l, control, now);
      case Correct(id, controls, notes, now) => CorrectionWrites(s, l, id, controls, notes, now);
      case Exclude(id, now) => ExclusionWrites(s, l, id, now);
      case Configure(_) =>
      case Meet(mode, now) => MeetingWrites(s, l, mode, now);
    }
  }

  /** No shot loses its place, an observation, a note or an abstention, and its outcome changes to excluded only. */
  predicate Remembers(a: seq<Shot>, b: seq<Shot>)
  {
    && |a| <= |b|
    && forall i :: 0 <= i < |a| ==> RemembersShot(a[i], b[i])
  }

  predicate RemembersShot(a: Shot, b: Shot)
  {
    && b.id == a.id && b.sequence == a.sequence && a.notes.Keys <= b.notes.Keys
    && (b.status == a.status || b.status == Excluded)
    && (a.observed.Some? ==> b.observed.Some?) && (a.abstention.Some? ==> b.abstention == a.abstention)
  }

  lemma RewritingRemembers(s: Settings, l: Ledger, e: Event, a: Shot, b: Shot)
    requires Rewrites(s, l, e, a, b)
    ensures RemembersShot(a, b)
  {
  }

  /** Over any run nothing that was recorded of a shot is lost. */
  lemma {:induction false} ShotsAreRemembered(x: Session, es: seq<Event>)
    requires Inv(x.ledger) && AllAllowed(x, es)
    ensures Remembers(x.ledger.shots, Play(x, es).ledger.shots)
  {
    if es != [] {
      var y, e := Play(x, es[..|es| - 1]), es[|es| - 1];
      ShotsAreRemembered(x, es[..|es| - 1]);
      EveryRunKeepsInv(x, es[..|es| - 1]);
      StepWritesShots(y, e);
      StepRemembers(y, e);
      RemembersTwice(x.ledger.shots, y.ledger.shots, Step(y, e).ledger.shots);
    }
  }

  lemma StepRemembers(y: Session, e: Event)
    requires if Attempt(y.settings, y.ledger, e).Ok? then ShotsAfter(y.settings, y.ledger, e, Step(y, e).ledger) else Step(y, e).ledger == y.ledger
    ensures Remembers(y.ledger.shots, Step(y, e).ledger.shots)
  {
    var z := Step(y, e).ledger;
    if Attempt(y.settings, y.ledger, e).Ok? {
      forall i | 0 <= i < |y.ledger.shots|
        ensures RemembersShot(y.ledger.shots[i], z.shots[i])
      {
        RewritingRemembers(y.settings, y.ledger, e, y.ledger.shots[i], z.shots[i]);
      }
    }
  }

  lemma RemembersTwice(a: seq<Shot>, b: seq<Shot>, c: seq<Shot>)
    requires Remembers(a, b) && Remembers(b, c)
    ensures Remembers(a, c)
  {
    forall i | 0 <= i < |a|
      ensures RemembersShot(a[i], c[i])
    {
      assert RemembersShot(a[i], b[i]) && RemembersShot(b[i], c[i]);
    }
  }

  // ----- suggestion rows -----

  /** Whether a use case that succeeds replaces the state by a rebuilt or a new one. */
  predicate Rebuilds(s: Settings, l: Ledger, e: Event)
  {
    match e
    case Correct(id, controls, _, _) =>
      HasShot(l.shots, id) && FindShot(l.shots, id).value.recipe != RecipeId(l.run.space.version, QuantizeObserved(l.run.space, controls.recipe))
    case Exclude(id, _) => HasShot(l.shots, id) && !FindShot(l.shots, id).value.status.Excluded?
    case Meet(mode, _) => FitOf(s, l, mode).Migrated? || FitOf(s, l, mode).Reconfigured?
    case _ => false
  }

  /** What becomes of an open suggestion when a use case succeeds. */
  function Fate(s: Settings, l: Ledger, e: Event, was: SuggestionStatus): SuggestionStatus
  {
    match e
    case Report(r, _, _) => if r.status.Valid? then AwaitingPreference else InvalidShot
    case Prefer(j, _, _) => if l.state.pendingShot == Some(j.newShot) then Resolved else was
    case Abstain(n, _, _) => if l.state.pendingShot == Some(n) then Superseded else was
    case Correct(_, _, _, _) => if Rebuilds(s, l, e) && l.state.pendingShot.None? then Superseded else was
    case _ => if Rebuilds(s, l, e) then Superseded else was
  }

  /** The suggestion rows after a use case that succeeded: no row goes or changes what it suggests, a closed one stays as it is, and an
      open one meets its fate. */
  predicate RowsAfter(s: Settings, l: Ledger, e: Event, m: Ledger)
  {
    && |l.suggestions| <= |m.suggestions| <= |l.suggestions| + (if e.Suggest? then 1 else 0)
    && forall k :: 0 <= k < |l.suggestions| ==>
         && m.suggestions[k].suggestion == l.suggestions[k].suggestion
         && m.suggestions[k].status ==
            if Open(l.suggestions[k].status) then Fate(s, l, e, l.suggestions[k].status) else l.suggestions[k].status
  }

  lemma SuggestRows(s: Settings, l: Ledger, p: Option<Engine.Proposal>, now: nat)
    requires Inv(l) && SuggestNext(s, l, p, now).Ok?
    ensures RowsAfter(s, l, Suggest(p, now), SuggestNext(s, l, p, now).value.0)
  {
    SuggestionParts(s, l, p, now);
  }

  lemma ReportRows(s: Settings, l: Ledger, r: ShotReport, deviate: bool, now: nat)
    requires Inv(l) && RecordShot(l, r, deviate, now).Ok?
    ensures RowsAfter(s, l, Report(r, deviate, now), RecordShot(l, r, deviate, now).value.0)
  {
    RecordedParts(l, r, deviate, now);
    if l.state.pendingRecipe.Some? {
      var k := OpenRow(l);
      OnlyOpen(l, k);
    } else {
      NoOpenRow(l);
      NothingIsOpen(l);
    }
  }

  lemma OnlyOpen(l: Ledger, k: nat)
    requires forall i: nat :: IsOpen(l, i) ==> i == k
    ensures forall i :: 0 <= i < |l.suggestions| && Open(l.suggestions[i].status) ==> i == k
  {
    forall i | 0 <= i < |l.suggestions| && Open(l.suggestions[i].status)
      ensures i == k
    {
      assert IsOpen(l, i);
    }
  }

  lemma NothingIsOpen(l: Ledger)
    requires forall i: nat :: !IsOpen(l, i)
    ensures forall i :: 0 <= i < |l.suggestions| ==> !Open(l.suggestions[i].status)
  {
    forall i | 0 <= i < |l.suggestions|
      ensures !Open(l.suggestions[i].status)
    {
      assert !IsOpen(l, i);
    }
  }

  lemma AbstainRows(s: Settings, l: Ledger, n: ShotId, anchor: ShotId, now: nat)
    requires Inv(l) && RecordAbstention(l, n, anchor, now).Ok?
    ensures RowsAfter(s, l, Abstain(n, anchor, now), RecordAbstention(l, n, anchor, now).value)
  {
    var i := AbstentionParts(l, n, anchor, now);
  }

  lemma PreferRows(s: Settings, l: Ledger, j: Judgement, id: ComparisonId, now: nat)
    requires Inv(l) && KeyFollows(l, id, now) && RecordPreference(s, l, j, id, now).Ok?
    ensures RowsAfter(s, l, Prefer(j, id, now), RecordPreference(s, l, j, id, now).value)
  {
    if l.state.pendingShot == Some(j.newShot) {
      var c, k := PreferenceParts(s, l, j, id, now);
      OnlyOpen(l, k);
    }
  }

  lemma CorrectRows(s: Settings, l: Ledger, id: ShotId, controls: Controls, notes: map<nat, nat>, now: nat)
    requires Inv(l) && CorrectShot(s, l, id, controls, notes, now).Ok?
    ensures RowsAfter(s, l, Correct(id, controls, notes, now), CorrectShot(s, l, id, controls, notes, now).value.0)
  {
    var (m, done) := CorrectShot(s, l, id, controls, notes, now).value;
    CorrectionRebuilds(s, l, id, controls, notes, now);
    CorrectedRows(s, l, id, controls, notes, now);
    if l.state.pendingRecipe.None? {
      NoOpenRow(l);
      NothingIsOpen(l);
    }
  }

  /** A correction rebuilds the state exactly when it changes the recipe, and then keeps pending work exactly while a shot is awaited. */
  lemma CorrectionRebuilds(s: Settings, l: Ledger, id: ShotId, controls: Controls, notes: map<nat, nat>, now: nat)
    requires Inv(l) && CorrectShot(s, l, id, controls, notes, now).Ok?
    ensures var (m, done) := CorrectShot(s, l, id, controls, notes, now).value;
      && (Rebuilds(s, l, Correct(id, controls, notes, now)) <==> done.recipeChanged)
      && (done.recipeChanged && l.state.pendingShot.None? ==> m.state.pendingRecipe.None?)
      && (done.recipeChanged && l.state.pendingShot.Some? ==> m.state.pendingRecipe == l.state.pendingRecipe)
  {
    var i, recipe := CorrectionParts(s, l, id, controls, notes, now);
    var (m, done) := CorrectShot(s, l, id, controls, notes, now).value;
    ObservedIs(l.run, controls, l.table.rows[l.shots[i].recipe].createdAt);
    if done.recipeChanged {
      RebuiltState(s, l, m, CollectRecipes(l.table, map[recipe.id := recipe], m.shots, Some(id)).value, now);
    }
  }

  lemma CorrectedRows(s: Settings, l: Ledger, id: ShotId, controls: Controls, notes: map<nat, nat>, now: nat)
    requires CorrectShot(s, l, id, controls, notes, now).Ok?
    ensures var (m, done) := CorrectShot(s, l, id, controls, notes, now).value;
      m.suggestions == if done.recipeChanged && l.state.pendingRecipe.Some? && m.state.pendingRecipe.None? then Supersede(l.suggestions) else l.suggestions
  {
  }

  lemma ExcludeRows(s: Settings, l: Ledger, id: ShotId, now: nat)
    requires Inv(l) && ExcludeShot(s, l, id, now).Ok?
    ensures RowsAfter(s, l, Exclude(id, now), ExcludeShot(s, l, id, now).value)
  {
    if !FindShot(l.shots, id).value.status.Excluded? {
      var i, rows := ExclusionParts(s, l, id, now);
      SupersededRows(s, l, Exclude(id, now), ExcludeShot(s, l, id, now).value);
    }
  }

  lemma SupersededRows(s: Settings, l: Ledger, e: Event, m: Ledger)
    requires m.suggestions == Supersede(l.suggestions) && Rebuilds(s, l, e) && (e.Exclude? || e.Meet?)
    ensures RowsAfter(s, l, e, m)
  {
  }

  lemma MeetRows(s: Settings, l: Ledger, mode: Option<Mode>, now: nat)
    requires Inv(l) && CompatibleRun(s, l, mode, now).Ok?
    ensures RowsAfter(s, l, Meet(mode, now), CompatibleRun(s, l, mode, now).value)
  {
    var desired, m := if mode.Some? then mode.value else l.run.mode, CompatibleRun(s, l, mode, now).value;
    match FitOf(s, l, mode)
    case AsItIs =>
    case Retired =>
    case Migrated =>
      MigrationSupersedes(s, l, desired, now, m);
      SupersededRows(s, l, Meet(mode, now), m);
    case Reconfigured =>
      ReconfigurationSupersedes(s, l, desired, now, m);
      SupersededRows(s, l, Meet(mode, now), m);
  }

  lemma MigrationSupersedes(s: Settings, l: Ledger, mode: Mode, now: nat, m: Ledger)
    requires ShotRows(l.shots) && MigrateRun(s, l, mode, now) == Ok(m)
    ensures m.suggestions == Supersede(l.suggestions) && m.state.model.None? && m.state.trace.None? && m.state.updatedAt == now
    ensures MadeWith(s, m)
  {
    var space, rebased, state := MigrationParts(s, l, mode, now);
  }

  lemma ReconfigurationSupersedes(s: Settings, l: Ledger, mode: Mode, now: nat, m: Ledger)
    requires ReconfigureRun(s, l, mode, now) == Ok(m)
    ensures m.suggestions == Supersede(l.suggestions) && m.state.model.None? && m.state.trace.None? && m.state.updatedAt == now
    ensures l.run.space.version == s.domain ==> MadeWith(s, m)
  {
  }

  /** Every use case does exactly this to the suggestion rows. */
  lemma StepSettlesSuggestions(x: Session, e: Event)
    requires Inv(x.ledger) && Allowed(x, e) && Attempt(x.settings, x.ledger, e).Ok?
    ensures RowsAfter(x.settings, x.ledger, e, Step(x, e).ledger)
  {
    var s, l := x.settings, x.ledger;
    match e
    case Suggest(p, now) => SuggestRows(s, l, p, now);
    case Report(r, deviate, now) => ReportRows(s, l, r, deviate, now);
    case Abstain(n, a, now) => AbstainRows(s, l, n, a, now);
    case Prefer(j, id, now) => PreferRows(s, l, j, id, now);
    case Reopen(control, now) => ResumeFrame(s, l, control, now);
    case Correct(id, controls, notes, now) => CorrectRows(s, l, id, controls, notes, now);
    case Exclude(id, now) => ExcludeRows(s, l, id, now);
    case Configure(_) =>
    case Meet(mode, now) => MeetRows(s, l, mode, now);
  }

  // ----- the optimizer's state -----

  function When(e: Event): nat { if e.Configure? then 0 else e.now }

  /** The checkpoints of the models are those of the last suggestion; whatever rebuilds or restarts the state drops them. */
  predicate CheckpointsAfter(s: Settings, l: Ledger, e: Event, m: Ledger)
  {
    if Rebuilds(s, l, e) then m.state.model.None? && m.state.trace.None?
    else if e.Suggest? && e.proposal.Some? && l.state.pendingRecipe.None? then
      m.state.model == Some(e.proposal.value.model) && m.state.trace == e.proposal.value.trace
    else m.state.model == l.state.model && m.state.trace == l.state.trace
  }

  /** Checkpoints, and the time of the last change: what a use case writes into the state besides heads, region and pending work. */
  predicate StateAfter(s: Settings, l: Ledger, e: Event, m: Ledger)
  {
    && CheckpointsAfter(s, l, e, m)
    && (m.state != l.state ==> m.state.updatedAt == When(e))
  }

  lemma SuggestState(s: Settings, l: Ledger, p: Option<Engine.Proposal>, now: nat)
    requires Inv(l) && SuggestNext(s, l, p, now).Ok?
    ensures StateAfter(s, l, Suggest(p, now), SuggestNext(s, l, p, now).value.0)
  {
    SuggestionParts(s, l, p, now);
    if l.state.pendingRecipe.None? {
      MadeFrom(s.configuration, l, p, now);
    }
  }

  lemma MadeFrom(configuration: nat, l: Ledger, p: Option<Engine.Proposal>, now: nat)
    requires Engine.Suggest(configuration, l, p, now).Ok?
    ensures p.Some? && Engine.Suggest(configuration, l, p, now).value.model == p.value.model
    ensures Engine.Suggest(configuration, l, p, now).value.trace == p.value.trace
  {
  }

  lemma PreferState(s: Settings, l: Ledger, j: Judgement, id: ComparisonId, now: nat)
    requires Inv(l) && KeyFollows(l, id, now) && RecordPreference(s, l, j, id, now).Ok?
    ensures StateAfter(s, l, Prefer(j, id, now), RecordPreference(s, l, j, id, now).value)
  {
    if l.state.pendingShot == Some(j.newShot) {
      var c, k := PreferenceParts(s, l, j, id, now);
    }
  }

  lemma CorrectState(s: Settings, l: Ledger, id: ShotId, controls: Controls, notes: map<nat, nat>, now: nat)
    requires Inv(l) && CorrectShot(s, l, id, controls, notes, now).Ok?
    ensures StateAfter(s, l, Correct(id, controls, notes, now), CorrectShot(s, l, id, controls, notes, now).value.0)
  {
    var i, recipe := CorrectionRecord(s, l, id, controls, notes, now);
    UniqueShot(l.shots, i);
    ObservedIs(l.run, controls, l.table.rows[l.shots[i].recipe].createdAt);
  }

  lemma ExcludeState(s: Settings, l: Ledger, id: ShotId, now: nat)
    requires Inv(l) && ExcludeShot(s, l, id, now).Ok?
    ensures StateAfter(s, l, Exclude(id, now), ExcludeShot(s, l, id, now).value)
  {
    if !FindShot(l.shots, id).value.status.Excluded? {
      var i, rows := ExclusionParts(s, l, id, now);
    }
  }

  lemma MeetState(s: Settings, l: Ledger, mode: Option<Mode>, now: nat)
    requires Inv(l) && CompatibleRun(s, l, mode, now).Ok?
    ensures StateAfter(s, l, Meet(mode, now), CompatibleRun(s, l, mode, now).value)
  {
    var desired, m := if mode.Some? then mode.value else l.run.mode, CompatibleRun(s, l, mode, now).value;
    match FitOf(s, l, mode)
    case AsItIs =>
    case Retired =>
    case Migrated => MigrationSupersedes(s, l, desired, now, m);
    case Reconfigured => ReconfigurationSupersedes(s, l, desired, now, m);
  }

  lemma ReportState(s: Settings, l: Ledger, r: ShotReport, deviate: bool, now: nat)
    requires RecordShot(l, r, deviate, now).Ok?
    ensures StateAfter(s, l, Report(r, deviate, now), RecordShot(l, r, deviate, now).value.0)
  {
    RecordedParts(l, r, deviate, now);
  }

  lemma AbstainState(s: Settings, l: Ledger, n: ShotId, anchor: ShotId, now: nat)
    requires Inv(l) && RecordAbstention(l, n, anchor, now).Ok?
    ensures StateAfter(s, l, Abstain(n, anchor, now), RecordAbstention(l, n, anchor, now).value)
  {
    var i := AbstentionParts(l, n, anchor, now);
  }

  lemma ReopenState(s: Settings, l: Ledger, control: Option<ControlId>, now: nat)
    requires ResumeLocalExploration(s, l, control, now).Ok?
    ensures StateAfter(s, l, Reopen(control, now), ResumeLocalExploration(s, l, control, now).value)
  {
  }

  /** Every use case leaves the checkpoints as they should be and stamps what it changes with its time. */
  lemma StepStampsState(x: Session, e: Event)
    requires Inv(x.ledger) && Allowed(x, e) && Attempt(x.settings, x.ledger, e).Ok?
    ensures StateAfter(x.settings, x.ledger, e, Step(x, e).ledger)
  {
    var s, l := x.settings, x.ledger;
    match e
    case Suggest(p, now) => SuggestState(s, l, p, now);
    case Report(r, deviate, now) => ReportState(s, l, r, deviate, now);
    case Abstain(n, a, now) => AbstainState(s, l, n, a, now);
    case Prefer(j, id, now) => PreferState(s, l, j, id, now);
    case Reopen(control, now) => ReopenState(s, l, control, now);
    case Correct(id, controls, notes, now) => CorrectState(s, l, id, controls, notes, now);
    case Exclude(id, now) => ExcludeState(s, l, id, now);
    case Configure(_) =>
    case Meet(mode, now) => MeetState(s, l, mode, now);
  }

  // ----- settings -----

  /** Limits, configuration and seed of a run come from one and the same settings. */
  predicate MadeWith(s: Settings, l: Ledger)
  {
    && l.run.space.version == s.domain && l.run.configuration == s.configuration
    && l.state.configuration == s.configuration && l.state.seed == s.seed
  }

  ghost predicate MadeWithOne(ss: set<Settings>, l: Ledger) { exists s :: s in ss && MadeWith(s, l) }

  /** The settings of a story: those it began with and all that were configured since. */
  function SettingsOf(st: Story): set<Settings>
  {
    {st.settings} + set i | 0 <= i < |st.events| && st.events[i].Configure? :: st.events[i].settings
  }

  /** The use case leaves limits, configuration and seed alone, or takes all three from the settings. */
  predicate Adopts(s: Settings, l: Ledger, m: Ledger)
  {
    || MadeWith(s, m)
    || (m.run.space.version == l.run.space.version && m.run.configuration == l.run.configuration
        && m.state.configuration == l.state.configuration && m.state.seed == l.state.seed)
  }

  lemma PreferAdopts(s: Settings, l: Ledger, j: Judgement, id: ComparisonId, now: nat)
    requires Inv(l) && KeyFollows(l, id, now) && RecordPreference(s, l, j, id, now).Ok?
    ensures Adopts(s, l, RecordPreference(s, l, j, id, now).value)
  {
    if l.state.pendingShot == Some(j.newShot) {
      var c, k := PreferenceParts(s, l, j, id, now);
    }
  }

  lemma CorrectAdopts(s: Settings, l: Ledger, id: ShotId, controls: Controls, notes: map<nat, nat>, now: nat)
    requires Inv(l) && CorrectShot(s, l, id, controls, notes, now).Ok?
    ensures Adopts(s, l, CorrectShot(s, l, id, controls, notes, now).value.0)
  {
    var i, recipe := CorrectionRecord(s, l, id, controls, notes, now);
  }

  lemma ExcludeAdopts(s: Settings, l: Ledger, id: ShotId, now: nat)
    requires Inv(l) && ExcludeShot(s, l, id, now).Ok?
    ensures Adopts(s, l, ExcludeShot(s, l, id, now).value)
  {
    if !FindShot(l.shots, id).value.status.Excluded? {
      var i, rows := ExclusionParts(s, l, id, now);
    }
  }

  lemma MeetAdopts(s: Settings, l: Ledger, mode: Option<Mode>, now: nat)
    requires Inv(l) && CompatibleRun(s, l, mode, now).Ok?
    ensures Adopts(s, l, CompatibleRun(s, l, mode, now).value)
  {
    var desired, m := if mode.Some? then mode.value else l.run.mode, CompatibleRun(s, l, mode, now).value;
    match FitOf(s, l, mode)
    case AsItIs =>
    case Retired =>
    case Migrated => MigrationSupersedes(s, l, desired, now, m);
    case Reconfigured => ReconfigurationSupersedes(s, l, desired, now, m);
  }

  lemma StepAdopts(x: Session, e: Event)
    requires Inv(x.ledger) && Allowed(x, e) && Attempt(x.settings, x.ledger, e).Ok?
    ensures Adopts(x.settings, x.ledger, Step(x, e).ledger)
  {
    var s, l := x.settings, x.ledger;
    match e
    case Suggest(p, now) => SuggestionParts(s, l, p, now);
    case Report(r, deviate, now) => RecordedParts(l, r, deviate, now);
    case Abstain(n, a, now) => var i := AbstentionParts(l, n, a, now);
    case Prefer(j, id, now) => PreferAdopts(s, l, j, id, now);
    case Reopen(control, now) => ResumeFrame(s, l, control, now);
    case Correct(id, controls, notes, now) => CorrectAdopts(s, l, id, controls, notes, now);
    case Exclude(id, now) => ExcludeAdopts(s, l, id, now);
    case Configure(_) =>
    case Meet(mode, now) => MeetAdopts(s, l, mode, now);
  }

  lemma {:induction false} PlayAdopts(x: Session, ss: set<Settings>, es: seq<Event>)
    requires Sane(x.ledger) && AllAllowed(x, es) && MadeWithOne(ss, x.ledger) && x.settings in ss
    requires forall i :: 0 <= i < |es| && es[i].Configure? ==> es[i].settings in ss
    ensures MadeWithOne(ss, Play(x, es).ledger) && Play(x, es).settings in ss
  {
    if es != [] {
      var y, e := Play(x, es[..|es| - 1]), es[|es| - 1];
      PlayAdopts(x, ss, es[..|es| - 1]);
      PlayStaysSane(x, es[..|es| - 1]);
      if Attempt(y.settings, y.ledger, e).Ok? {
        StepAdopts(y, e);
      }
    }
  }

  /** In every story limits, configuration and seed of the run come from one of the story's settings, never from two. */
  lemma EveryRunIsMadeWithOne(st: Story)
    requires st.Told()
    ensures MadeWithOne(SettingsOf(st), st.End().ledger)
  {
    BeginningIsSane(st);
    assert MadeWith(st.settings, st.Start().ledger);
    PlayAdopts(st.Start(), SettingsOf(st), st.events);
  }
}
