# A verified model of consecutive preference optimization

The system tunes an espresso recipe one shot at a time. A run proposes a recipe, the machine pulls it, and the user says
whether the new shot is better than an anchor shot. This project models the ledger of such a run, the service that moves it,
the repository below it and the runtime bridge above it, and proves what they keep over every sequence of calls. It also models
the recipe arithmetic, the upload queue with its worker, live telemetry, the trimming of recorded shots and the persisted form
of optimizer states.

Run `dafny verify dfyconfig.toml` to check everything.

## How it is organised

| files | what they hold |
|---|---|
| `Prelude`, `RecipeSpace`, `Cpbo`, `TrustRegions`, `History`, `Ledgers`, `Engine`, `Service`, `Bridge` | the values, and each operation as a function from old rows to new rows or a refusal |
| `Repositories`, `PreferenceServices`, `RuntimeBridges` | the same operations as objects that change their rows in place, loops included, proved against those functions |
| `RecipeLaws`, `TrustRegionLaws`, `HistoryLaws`, `ReplayLaws` | laws of single functions |
| `Integrity` | what the repository's own guards keep, whatever it is asked to write |
| `Invariants`, `Faithfulness`, `Frames`, `Markings` | what each use case keeps, and that live state and replay agree |
| `Tempos`, `KeyOrder` | what labels, modes and markers alone decide about a replay, and where a comparison may be inserted |
| `Runs`, `Conservation`, `Endurance`, `Evidence`, `Guarantees`, `Migrations`, `Convergence`, `Recordings`, `Mismatches` | statements over whole runs, and exact conditions of success |
| `Trails` | what an audit trail says, and that a replay writes exactly that |
| `Stories`, `AuditTrails`, `Footprints` | the same from the creation of a run on; the audit trail, and what every use case writes, in every story |
| `Visits`, `Answers`, `Escapes`, `Standstill` | what machines and users send to the bridge, what is recorded of it, what it is answered, and what of it leads out of local convergence |
| `Witnesses` | concrete runs that reach the states in which a property fails |
| `UploadQueues`, `UploadLaws`, `UploadWorkers` | the upload queue as a state machine, its safety, and the objects |
| `LiveTelemetry`, `LiveShots` | live sessions, gap accounting, and the objects |
| `ShotTail`, `ShotTrimming` | trimming, and the in-place loops |
| `StateCodec` | encoding and decoding over JSON values |

A call that raises leaves the rows unchanged, so a use case is a function into a result. A run is a sequence of events
(`Runs.Event`) with arbitrary arguments, including wrong ones; a story (`Runs.Story`) is a run together with its creation. Two
things are assumed of the environment, in `Runs.Allowed`: the key of a new comparison (time, then identifier) sorts after the
stored ones, and the clock shows a positive time when exploration is resumed. The first is an assumption the code cannot enforce,
because identifiers are random within one second; `KeyOrder.EarlierKeyCondition` says exactly which earlier keys do harm.

Names used in statements: `Inv` is the invariant of the rows, `Faithful` says that the stored state is the replay of the stored
history, `Live` adds that convergence means no pending work, `Steady` excludes reconfigurations and changes of the schedule, and
`Sane` is what every state of every story satisfies, reconfigured or not. A run can be rebuilt (`Guarantees.CanRebuild`) when the
labels, modes and resume markers of its comparisons can be replayed; where its shots lie plays no part. The objects carry `Inv` as
their `Valid()`.

## What turned out not to hold

- A run can be converged in global-previous mode, where every shot is answered with convergence and resuming is refused. Rebuilds
  lead there: a migration keeps convergence whatever mode it changes to (`Standstill.MigrationCarriesConvergence`), and after a
  change of mode the correction of one recipe brings back the convergence the change had cleared
  (`Convergence.CorrectionAfterReconfiguration`), as an exclusion may. Whether a rebuild ends converged depends on labels, modes and
  markers alone (`Tempos.RebuildCondition`). While settings and mode stay, nothing leads out but the exclusion of a shot without which
  the history does not end converged (`Standstill.VisitCondition`, `Standstill.OnlyExclusionsLeadOut`). Such a shot always exists: the
  new shot of the comparison that converged the run (`Escapes.OneExclusionLeadsOut`). Without excluding a shot, over one schedule, a
  converged run has a way out if and only if it judges against the incumbent (`Standstill.WhenConvergenceHasAnExit`).
  `Witnesses.CorrectionLeavesOnlyExclusion` and `Witnesses.MigrationLeavesOnlyExclusion` are runs that only an exclusion frees.
- A reconfiguration drops the resume markers but not the comparisons they followed. Afterwards the history can be rebuilt if and
  only if no best-incumbent comparison followed a resumption (`Convergence.ReconfiguredCondition`); otherwise every correction that
  changes a recipe and every migration is refused, and an exclusion unless it drops enough of the history
  (`Stories.WhenCorrectionSucceeds`, `Stories.WhenMigrationSucceeds`, `Stories.WhenExclusionSucceeds`).
  `Witnesses.ReconfigurationRefusesCorrections` is such a run.
- An awaited judgement can be refused: in a reconfigured best-incumbent run a correction may converge the region while a shot is
  awaited, and then the run can be neither judged nor resumed until the user abstains (`Convergence.JudgementCondition` has the
  exact condition, `Witnesses.CorrectionBlocksTheJudgement` such a run).
- Creating and observing a recipe agree only when the top cell of each range fits (`RecipeLaws.ObservingQuantizedIsStable`).
  Otherwise a recorded shot can fail to match its own observation (`Evidence.RecordedObservation`,
  `Witnesses.FirstShotMismatches`), and nothing new is suggested until that shot is corrected or the run is migrated; excluding it
  does not help (`Mismatches.MatchesOnceRepaired`, `Mismatches.NothingIsSuggestedUntilRepaired`).
- A migrated run that loses its last valid shot may not get a new baseline: the baseline must stand for the recipe listed first.
  Recipes are listed by creation time and then by identifier, a hash; a migration gives its copies the creation times of the
  originals, so once a baseline was recorded the original and its copy tie, and the order of two hashes decides which is listed first.
  The model leaves that order open (`Cpbo.RunId`). `Stories.WhenAMigrationMovesTheFirst` says when a migration changes the first
  recipe, and `Stories.WhenABaselineCanBeRecorded` when a run without a valid shot can get one; a run in other limits than its first
  recipe gets none before a migration or a correction brings the two together (`Recordings.StepStaysAway`,
  `Recordings.NoBaselineAwayFromHome`). `Witnesses.MigrationMayLoseTheBaseline` is a run that loses its baseline for one order of two
  identifiers and keeps it for the other.
- A judgement whose key sorts before a stored one breaks the chain unless it and the row it is listed before were judged against the
  incumbent, it did not win and the incumbent has not changed since; against the previous shot it always breaks it
  (`KeyOrder.EarlierKeyCondition`, `KeyOrder.EarlierKeyBreaksTheChain`).
- An enqueue does not always leave the latest snapshot waiting: content that was accepted before, or is being sent, is skipped
  without replacing what waits (`UploadLaws.EnqueueCondition`, `UploadLaws.RevertedContentIsLost`).
- Deleting a local record deletes its upload rows, whatever their status. When that happens while its upload is on the wire, the outcome
  finds no row, recording it raises, and the worker's run ends (`UploadLaws.OutcomeIsMissedExactly`,
  `UploadLaws.ForgottenUploadIsMissed`); a record stored again meanwhile is found after all (`UploadLaws.StoredAgainIsRecorded`). And
  content that was accepted before the deletion is sent again (`UploadLaws.UploadsAreSafe`, `UploadLaws.ForgottenContentIsSentAgain`).
- The one-hour cap of the retry delay is never reached (`UploadLaws.RetriesBackOff`).
- An identifier that is the empty text is lost in the persisted state (`StateCodec.StateRoundTrip`).
- docs/cpbo.md says in its section on runs that a changed configuration archives the run and that stored recipes are never
  rewritten. The code reconfigures the run in place, and migrates its shots when the limits change; the model follows the code.

## Model

| member | source | states |
|---|---|---|
| Runs.LiveEqualsReplay | src/espresso_rl/application/preference_optimization.py:897-1020 | From creation on, after any sequence of use cases except a reconfiguration (settings may change, migrations may happen), the stored previous shot, incumbent and whole trust region, annotated transitions included, are what replaying the stored comparisons and resume markers over the stored shots and recipes computes |
| Runs.HeadsEqualReplay | src/espresso_rl/application/preference_optimization.py:651-714 | From creation on, reconfigurations included, the stored previous shot and incumbent are the head of the stored comparisons, replayable or not, and there is neither without a valid shot; a replay that succeeds finds the same |
| Stories.WhenReplaySucceeds | src/espresso_rl/application/preference_optimization.py:897-1020 | In every story a replay succeeds if and only if the labels, modes and markers of the history allow it, and then ends converged if and only if they say so |
| Stories.EveryStoryIsSane | src/espresso_rl/application/preference_optimization.py:174-714 | Every state of every story, reconfigured or not: the row invariants, canonical recipes, markers that are stamped, distinct and name stored comparisons, convergence only after an unmarked comparison, no unpulled suggestion in a converged best-incumbent run, and no recipe listed before the one that is listed first |
| Stories.SuggestionsAreNeverMissed | src/espresso_rl/adapters/sqlite_repositories.py:827-968 | No use case in any reachable state misses its suggestion, finds another one open or saves one its state does not name |
| Footprints.StepWritesShots | src/espresso_rl/application/preference_optimization.py:174-714 | What every use case writes into the shots: a report appends its executable recipe, status and notes; an abstention, a correction (recipe, observation, notes over the old ones), an exclusion and a migration rewrite exactly what they name; nothing else changes, and a call that raises writes nothing |
| Footprints.ShotsAreRemembered | src/espresso_rl/application/preference_optimization.py:174-714 | Over any run no shot loses its place, an observation, a note or an abstention, and its outcome changes to excluded only |
| Footprints.StepSettlesSuggestions | src/espresso_rl/adapters/sqlite_repositories.py:827-1083 | What every use case does to the suggestion rows: none goes or changes what it suggests, a closed one stays as it is, and the open one is awaited, invalid, resolved or superseded by exactly the use cases that should |
| Footprints.StepStampsState | src/espresso_rl/application/preference_optimization.py:174-714 | Model checkpoints are those of the last suggestion and are dropped by exactly the use cases that rebuild or restart the state; every change of the state carries its time |
| Footprints.EveryRunIsMadeWithOne | src/espresso_rl/application/preference_optimization.py:117-172 | In every story limits, configuration and seed of the run come from one and the same settings |
| Integrity.EveryRepositoryIsIntact | src/espresso_rl/adapters/sqlite_repositories.py:591-1083 | From the creation of a run on, after any sequence of transactions with any arguments (but that an exclusion keeps the shot's recipe): every shot has a stored recipe, no shot, suggestion or comparison is stored twice and one suggestion at most is open |
| Integrity.CommitStaysIntact | src/espresso_rl/adapters/sqlite_repositories.py:591-1083 | Each transaction that commits keeps this, loses no recipe and no shot, and neither retires nor revives the run unless it is the one that retires it |
| Integrity.SecondWriterIsRefused | src/espresso_rl/adapters/sqlite_repositories.py:789-814 | Of two writers that read the same state the second is refused once the first has saved at another time |
| Runs.EveryRunKeepsInv | src/espresso_rl/application/preference_optimization.py:174-582 | Every sequence of use cases with any arguments keeps the row invariants: at most one unresolved suggestion, pending fields that name it exactly when it exists, a legal chain, heads at the end of that chain, distinct and ordered rows, abstentions apart from comparisons |
| Runs.EverySteadyRunIsLive | src/espresso_rl/application/preference_optimization.py:897-1020 | The inductive form over every event sequence: the stored state stays the replay of the stored history and convergence stays without pending work |
| Runs.StepStaysLive | src/espresso_rl/application/preference_optimization.py:174-582 | Each single use case keeps live and replayed state equal |
| Invariants.InitializeEstablishes | src/espresso_rl/application/preference_optimization.py:117-172 | A new run satisfies every row invariant |
| Invariants.SuggestKeeps | src/espresso_rl/application/preference_optimization.py:174-215 | Suggesting keeps suggestion rows and pending fields in agreement, and the chain |
| Invariants.ShotKeeps | src/espresso_rl/application/preference_optimization.py:217-299 | Recording a shot keeps them: a valid one becomes the baseline or awaits its comparison with its suggestion row, a failed or aborted one closes the suggestion and leaves the heads |
| Invariants.AbstentionKeeps | src/espresso_rl/application/preference_optimization.py:301-332 | An abstention keeps them: a new one is written on the awaited shot, leaves nothing open and no comparison touched; a repeated one writes nothing |
| Invariants.PreferenceKeeps | src/espresso_rl/application/preference_optimization.py:334-413 | A judgement extends the legal chain by exactly its comparison, resolves the open suggestion, leaves nothing open and moves the heads; a repeated one writes nothing |
| Invariants.ResumeKeeps | src/espresso_rl/application/preference_optimization.py:415-477 | Resuming keeps them |
| Invariants.CorrectionKeeps | src/espresso_rl/application/preference_optimization.py:479-545 | A correction keeps them, whether or not the recipe changes |
| Invariants.ExclusionKeeps | src/espresso_rl/application/preference_optimization.py:547-582 | An exclusion keeps them for the filtered history |
| Invariants.MigrationKeeps | src/espresso_rl/application/preference_optimization.py:804-868 | A migration keeps them |
| Invariants.ReconfigurationKeeps | src/espresso_rl/application/preference_optimization.py:682-714 | A reconfiguration keeps them |
| Invariants.OpenRow | src/espresso_rl/adapters/sqlite_repositories.py:816-825 | A pending recipe is set only when exactly one row is open, pending until the shot is pulled and awaiting afterwards, and looking for the unresolved suggestion finds that row |
| Invariants.NoOpenRow | src/espresso_rl/adapters/sqlite_repositories.py:827-866 | Without a pending recipe no row is open, so saving a suggestion never finds another one |
| Faithfulness.PreferenceStaysLive | src/espresso_rl/application/preference_optimization.py:371-413 | The incremental update of a judgement is what the replay of the extended history computes |
| Faithfulness.ResumptionStaysLive | src/espresso_rl/application/preference_optimization.py:455-477 | Resuming now and replaying the marker later give the same region |
| Faithfulness.CorrectionStaysLive | src/espresso_rl/application/preference_optimization.py:870-895 | The state rebuilt after a recipe change is the replay over the corrected shots |
| Faithfulness.ExcludedFaithful | src/espresso_rl/application/preference_optimization.py:562-582 | An exclusion leaves the replay of the comparisons it kept, whether or not the run was faithful before |
| Faithfulness.MigrationStaysLive | src/espresso_rl/application/preference_optimization.py:804-868 | A migrated run is live in its new space |
| Faithfulness.ConvergedAfterUnmarked | src/espresso_rl/application/preference_optimization.py:974-1010 | A run is converged only after a last comparison that no resume marker follows yet, so the marker of a resumption is new |
| Faithfulness.SameScheduleAfterMove | src/espresso_rl/application/preference_optimization.py:897-1020 | Two faithful runs with the same comparisons and markers have equal lengths, counters, convergence and transitions up to centres, wherever the shots lie |
| HistoryLaws.RetainedIsIdentity | src/espresso_rl/application/preference_optimization.py:1044-1089 | The filter leaves a history unchanged if and only if it is a legal chain |
| HistoryLaws.RetainedIsLegal | src/espresso_rl/application/preference_optimization.py:1044-1089 | What the filter returns is a legal chain |
| HistoryLaws.RetainedIsIdempotent | src/espresso_rl/application/preference_optimization.py:1044-1089 | Filtering twice is filtering once, on arbitrary histories |
| HistoryLaws.RetainedIsChosen | src/espresso_rl/application/preference_optimization.py:1062-1089 | A comparison is kept exactly when it is legal after what was kept before it |
| HistoryLaws.RetainedIsUnique | src/espresso_rl/application/preference_optimization.py:1044-1089 | The filter returns the only subsequence with that property |
| HistoryLaws.IncumbentIsReached | src/espresso_rl/application/preference_optimization.py:966-970 | The incumbent is reached from the first valid shot by stored new-better comparisons with strictly increasing sequence numbers |
| HistoryLaws.BestIncumbentIsLastWin | src/espresso_rl/application/preference_optimization.py:966-970 | In an all-best-incumbent chain the incumbent is the new shot of the last new-better comparison, else the first valid shot |
| HistoryLaws.GlobalIncumbentEndsWinningPrefix | src/espresso_rl/application/preference_optimization.py:966-970 | In an all-global-previous chain the incumbent ends the longest all-new-better prefix |
| Stories.EveryHistoryIsRetained | src/espresso_rl/application/preference_optimization.py:1044-1089 | In every story the filter leaves the stored comparisons as they are |
| Stories.EveryIncumbentIsReached | src/espresso_rl/application/preference_optimization.py:966-970 | In every story with a valid shot the stored incumbent is reached from the first valid shot by stored wins with increasing sequence numbers |
| Stories.WhatEveryIncumbentIs | src/espresso_rl/application/preference_optimization.py:966-970 | In every story judged in one mode, the stored incumbent is the new shot of the last win (best-incumbent) or of the last comparison of the longest prefix of wins (global-previous), else the first valid shot |
| HistoryLaws.ChainAt | src/espresso_rl/application/preference_optimization.py:1062-1080 | Every comparison of a chain joins two valid shots, new after anchor, compared once, anchored at the head of the prefix as its mode says |
| ReplayLaws.ReplayReads | src/espresso_rl/application/preference_optimization.py:950-1003 | A replay depends only on the places and markers of the shots and comparisons it meets |
| ReplayLaws.ReplayMarkers | src/espresso_rl/application/preference_optimization.py:1004-1010 | The markers of a replayed region are exactly the given markers of replayed comparisons |
| ReplayLaws.ReplayIgnoresPlaces | src/espresso_rl/application/preference_optimization.py:950-1003 | Moving the shots changes centres only: success, length, counters, convergence and transitions stay |
| ReplayLaws.RebuildIsProjection | src/espresso_rl/application/preference_optimization.py:897-1020 | Rebuilding what was rebuilt changes nothing |
| TrustRegionLaws.UpdateStep | src/espresso_rl/optimizers/cpbo_trust_region.py:20-81 | An update succeeds exactly outside local convergence, appends one comparison transition to an unchanged trail, keeps length and counters on schedule and centres on the clamped candidate when the comparison was won, else stays (what the entry itself records: Trails.UpdateRecords) |
| TrustRegionLaws.ResumeStep | src/espresso_rl/optimizers/cpbo_trust_region.py:84-122 | A resumption succeeds exactly when converged, appends exactly one marker, clears convergence and restores the initial length |
| TrustRegionLaws.JudgeStep | src/espresso_rl/application/preference_optimization.py:378-396 | Judging a best-incumbent comparison adds one annotated transition; a global-previous one leaves the region alone |
| TrustRegionLaws.JudgeIgnoresCentre | src/espresso_rl/optimizers/cpbo_trust_region.py:20-81 | Regions that differ in centres only stay so when judged, and both judgements succeed or both fail |
| AuditTrails.EveryTrailIsSound | src/espresso_rl/optimizers/cpbo_trust_region.py:20-122 | In every story the audit trail starts at the initial length, every entry starts at the centre and length the one before ended at, and the last one ends where the region is; each entry's action, length and counters follow from its label and the streak so far under a schedule of the story, whose limits it records; won comparisons lead to where their new shot lies and resumptions to where the incumbent lies; and label, comparison, shots, incumbent and time of the entries are those of the best-incumbent comparisons and resumptions since the last reconfiguration, in order |
| AuditTrails.EverySteadyTrailIsWhole | src/espresso_rl/application/preference_optimization.py:897-1020 | In every story without reconfigurations the trail starts where the first valid shot lies and tells every best-incumbent comparison and resumption of the run |
| Trails.ReplayTells | src/espresso_rl/application/preference_optimization.py:942-1003 | A replay writes a continuous trail that starts at its base, leads along the places of the shots and tells exactly its history |
| Trails.UpdateRecords | src/espresso_rl/optimizers/cpbo_trust_region.py:20-81 | An update appends one entry whose before is where the region was and whose after is where it is, at the clamped candidate when the comparison was won |
| Evidence.ValidationIsLegality | src/espresso_rl/optimizers/cpbo.py:492-521 | The optimizer's forward check of the comparison history succeeds if and only if the history is a legal chain of valid shots |
| Evidence.ValidationAccepts | src/espresso_rl/optimizers/cpbo.py:439-489 | On the rows of any run the optimizer's validation succeeds if and only if there is a valid shot and every stored recipe is the one its observation stands for |
| Evidence.SuggestionCondition | src/espresso_rl/application/preference_optimization.py:187-215 | With nothing pending and an acceptable selection, a suggestion is stored if and only if there is a valid shot, observations match, configurations agree and a best-incumbent run is not converged |
| Evidence.EngineCondition | src/espresso_rl/optimizers/cpbo.py:55-110 | When the optimizer suggests, and that it then suggests its selection in the run's mode against the head of the stored comparisons that mode demands |
| Stories.EveryIterationCounts | src/espresso_rl/optimizers/cpbo.py:223 | In every story the stored iteration, which varies the optimizer's seed, is the number of suggestions made so far |
| Evidence.CanonicalNeverCollides | src/espresso_rl/adapters/sqlite_repositories.py:1110-1151 | The recipe collision error is unreachable for recipes of one run |
| Evidence.RecordedObservation | src/espresso_rl/application/preference_optimization.py:231-299 | A recorded shot matches its own observation if and only if observing its canonical recipe yields that recipe |
| Evidence.MismatchBlocksSuggestions | src/espresso_rl/optimizers/cpbo.py:439-489 | While a stored observation does not match its recipe, a run with nothing pending is suggested nothing, whatever the optimizer selects |
| Mismatches.MatchesOnceRepaired | src/espresso_rl/application/preference_optimization.py:479-545 | Over any run a shot matches its observation if and only if it did at the start, was itself corrected since, or the run was migrated since |
| Mismatches.NothingIsSuggestedUntilRepaired | src/espresso_rl/optimizers/cpbo.py:459-475 | From a mismatch on no suggestion is added by any sequence of use cases until the shot is corrected or the run migrated; excluding the shot does not help |
| Witnesses.FirstShotMismatches | src/espresso_rl/domain/cpbo.py:207-225 | A run whose dose range ends between two steps, with its baseline at the end: the recorded baseline does not match itself and every suggestion fails |
| Stories.WhenRecordingSucceeds | src/espresso_rl/application/preference_optimization.py:217-299 | In every story a shot is recorded if and only if it is new, its direction and controls fit the space, and its recipe is the one listed first (without a valid shot) or the pending one (or any, when deviations are allowed) |
| Stories.EveryFirstIsEarliest | src/espresso_rl/adapters/sqlite_repositories.py:751-757 | In every story no stored recipe is older than the one listed first, and of those as old none has an identifier that sorts before it |
| Stories.WhenAMigrationMovesTheFirst | src/espresso_rl/adapters/sqlite_repositories.py:751-757 | In every story, whatever the order of recipe identifiers, a migration changes which recipe is listed first if and only if a copy it makes is new, as old as the first recipe and sorts before it; of several shots with one new recipe the last decides its time |
| Recordings.CorrectionMovesFirst | src/espresso_rl/application/preference_optimization.py:479-545 | A correction changes it if and only if the corrected recipe is new, as old as the first recipe and sorts before it |
| Stories.WhenABaselineCanBeRecorded | src/espresso_rl/application/preference_optimization.py:246-249 | In every story a run without a valid shot can record some shot if and only if the recipe listed first belongs to its limits, lies on its grid and is within the physical envelope |
| Recordings.StepStaysAway | src/espresso_rl/application/preference_optimization.py:174-714 | A run without a valid shot, in other limits than those of its first recipe, stays without one whatever happens, and stays in other limits until and exactly until a migration leads to the limits of its first recipe, or a migration or correction puts a recipe of its limits first |
| Recordings.NoBaselineAwayFromHome | src/espresso_rl/application/preference_optimization.py:246-249 | Hence no shot can be recorded in such a run after any sequence of use cases without such a migration or correction |
| Witnesses.MigrationMayLoseTheBaseline | src/espresso_rl/application/preference_optimization.py:246-249 | A run whose only shot is excluded and whose limits change: for every order of recipe identifiers a baseline can be recorded again if and only if the copy of its baseline sorts before the original |
| Witnesses.NextShot | src/espresso_rl/application/preference_optimization.py:174-299 | In every story over an aligned space with matching evidence, nothing pending and no convergence, any recipe on the grid can be suggested next, pulled and recorded |
| Evidence.FilterRepairsForValidation | src/espresso_rl/application/preference_optimization.py:1044-1089 | The filtered history is always accepted by the optimizer, and it differs from the original exactly when the optimizer rejects the original |
| Stories.EveryAlignedStoryIsSound | src/espresso_rl/optimizers/cpbo.py:439-489 | In every story over ranges that are whole multiples of resolutions (or nearly), the optimizer's validation accepts the evidence if and only if there is a valid shot |
| Guarantees.CorrectionIsPreferenceNeutral | src/espresso_rl/application/preference_optimization.py:479-545 | A correction leaves comparisons, heads and an awaited comparison alone, supersedes a suggestion that was not pulled exactly when the recipe changes, and in a live run keeps length, counters, convergence and transition count |
| Stories.WhenCorrectionSucceeds | src/espresso_rl/application/preference_optimization.py:479-545 | In every story, reconfigured or not, a correction succeeds if and only if the shot is known, the grinder direction agrees, the observation lies in the envelope with positive quantized dose and output and, if the recipe changes, the history can be rebuilt |
| Stories.WhenExclusionSucceeds | src/espresso_rl/application/preference_optimization.py:547-582 | In every story an exclusion succeeds if and only if the shot is known and either excluded already or what the filter keeps without it can be rebuilt |
| Stories.WhenResumptionSucceeds | src/espresso_rl/application/preference_optimization.py:415-477 | In every story a resumption succeeds if and only if the run is active and best-incumbent and either converged with nothing pending or last resumed by the same request |
| Convergence.LiveResumeCondition | src/espresso_rl/application/preference_optimization.py:415-477 | In particular a converged run that was never reconfigured can be resumed if and only if it is active and judges against the incumbent |
| Guarantees.CorrectionConvergence | src/espresso_rl/application/preference_optimization.py:870-895 | A correction that changes a recipe leaves the region converged if and only if the labels, modes and markers of the history end converged |
| Guarantees.ExclusionConvergence | src/espresso_rl/application/preference_optimization.py:562-582 | An exclusion leaves the region converged if and only if the history it keeps ends converged |
| Guarantees.MigrationConvergence | src/espresso_rl/application/preference_optimization.py:849-868 | A migration leaves the region converged if and only if the history ends converged |
| Tempos.RebuildCondition | src/espresso_rl/application/preference_optimization.py:897-1020 | A rebuild succeeds if and only if the markers are distinct and name comparisons of the history and its labels and modes never meet a judgement in convergence or a marker outside of it; length, counters and convergence follow from these alone, wherever the shots lie |
| Tempos.WithoutMarkers | src/espresso_rl/application/preference_optimization.py:974-1010 | A history that was replayed with its markers is replayed without them if and only if no best-incumbent comparison follows a marked one |
| Stories.ExclusionIsConsistentInEveryStory | src/espresso_rl/application/preference_optimization.py:547-582 | In every story an exclusion leaves a subsequence of the comparisons, none mentioning the shot, a state equal to their replay, no open suggestion and no pending field |
| Guarantees.ExclusionIsIdempotent | src/espresso_rl/application/preference_optimization.py:547-550 | Excluding the same shot again writes nothing |
| Guarantees.ConvergedIsQuiescent | src/espresso_rl/application/preference_optimization.py:187-193 | A converged best-incumbent run has nothing pending, refuses every suggestion and shot, and a judgement it accepts writes nothing |
| Guarantees.MarkersNameComparisons | src/espresso_rl/application/preference_optimization.py:921-930 | Resume markers name distinct stored comparisons, so the duplicate-marker error is unreachable |
| Stories.WhenMigrationSucceeds | src/espresso_rl/application/preference_optimization.py:804-868 | In every story a migration succeeds if and only if the run is active and has shots, a step of each control fits the new limits, every observation lies in the envelope with positive quantized dose and output, and the history can be rebuilt |
| KeyOrder.EarlierKeyBreaksTheChain | src/espresso_rl/adapters/sqlite_repositories.py:772-780 | A judgement that is legal when given but whose key sorts before stored ones leaves a legal chain if and only if it and the next row were judged against the incumbent, it did not win and the incumbent has not changed since; against the previous shot never |
| KeyOrder.EarlierKeyCondition | src/espresso_rl/adapters/sqlite_repositories.py:772-780 | The same for an arbitrary place in an arbitrary history |
| Stories.MigrationIsPathIndependentInEveryStory | src/espresso_rl/application/preference_optimization.py:804-868 | In every story migrating to one set of limits and then to another leaves the same run, shots, comparisons, suggestions and state as migrating straight to the second |
| Migrations.MigrationKeepsEvidence | src/espresso_rl/application/preference_optimization.py:815-848 | A migration keeps every shot's id, order, status and observation, the comparisons and both heads |
| Stories.MigrationRoundTripInEveryStory | src/espresso_rl/application/preference_optimization.py:804-868 | In every story over aligned spaces, leaving the limits and coming back restores the space, every shot, recipe id included, and the comparisons |
| Stories.EveryShotOfAStoryHasOneRole | src/espresso_rl/application/preference_optimization.py:217-413 | In every story without exclusions each valid shot is the baseline, compared, abstained or awaited, and only one of these |
| Conservation.StaysAnswered | src/espresso_rl/application/preference_optimization.py:217-413 | A shot that no longer awaits an answer never awaits one again |
| Conservation.RedeliveredPreferenceIsHarmless | src/espresso_rl/application/preference_optimization.py:343-354 | Repeating a recorded judgement at any later point never writes, and returns if and only if the same answer is still stored |
| Conservation.RedeliveredAbstentionIsHarmless | src/espresso_rl/application/preference_optimization.py:309-316 | Repeating a recorded abstention at any later point never writes, and returns if and only if the shot is still valid and the anchor is the same |
| Conservation.RepeatedResumeIsHarmless | src/espresso_rl/application/preference_optimization.py:428-440 | After a resumption no resume request writes anything before the next judgement, whatever else happens in between; the same request id returns if and only if the run is still active and best-incumbent and has a comparison, any other is refused |
| Conservation.AnswerIsFoundOnce | src/espresso_rl/application/preference_optimization.py:602-616 | After an accepted judgement exactly one stored comparison answers it, so the lookup never raises |
| Bridge.HandleShotIsSafe | src/espresso_rl/application/cpbo_runtime.py:154-247 | For every shot in every state: the service's pending-suggestion errors are never reached, and a processed shot leaves the run without a baseline, converged, awaiting one preference or with exactly one open suggestion |
| Bridge.BaselineIsRecorded | src/espresso_rl/application/cpbo_runtime.py:195-197 | A previous shot is recorded if and only if an incumbent is, and if and only if some stored shot is valid |
| Visits.VisitsContinue | src/espresso_rl/application/cpbo_runtime.py:154-504 | Whatever is sent while settings and mode stay, an active run in line with them stays the same run and keeps every shot at its place |
| Visits.RedeliveredShotIsHarmless | src/espresso_rl/application/cpbo_runtime.py:157-172 | A shot that was processed, in whatever state, is never processed again: after any further visits its redelivery is turned away and writes nothing |
| Visits.ProcessedIsAsRecorded | src/espresso_rl/application/cpbo_runtime.py:209-239 | A shot that is processed, in whatever state, is stored under its id with its notes and with the executable grind, dose and output nearest to the reported relative grind, dose target and target yield, all of which are known; it is valid exactly when it finished or was finished by hand, a machine failure exactly after a failure, else aborted |
| Visits.FirstShotOpensARun | src/espresso_rl/application/cpbo_runtime.py:183-191 | The run a first shot opens: grinder range around the shot's own setting, dose and output within the configured limits, in the machine's steps and direction |
| Answers.WhatAShotIsAnswered | src/espresso_rl/application/cpbo_runtime.py:154-247 | What a shot is answered follows from the record and the rows it leaves, in every case: the first valid shot and every later invalid one get the open suggestion, every later valid one awaits its judgement, a converged run says so, an awaiting one asks again, and the reason for every other refusal is the first that applies |
| Answers.WhatAnAnswerIsAnswered | src/espresso_rl/application/cpbo_runtime.py:283-340 | An accepted answer returns the open suggestion exactly when the run has not converged and awaits nothing |
| Answers.WhatAnEditIsAnswered | src/espresso_rl/application/cpbo_runtime.py:342-450 | What an edit is answered follows from the edit and the rows it leaves: after a rebuild the awaited judgement, else that no valid shot is left, else convergence, else the open suggestion |
| Answers.WhatAResumeIsAnswered | src/espresso_rl/application/cpbo_runtime.py:467-504 | An accepted resume request is answered with the open suggestion |
| Answers.WhatMeetingDoes | src/espresso_rl/application/preference_optimization.py:651-714 | A run that awaits a judgement or is in line with the settings is left alone, one without shots in other limits is retired, and every other is brought in line with nothing pending |
| Bridge.HandleAnswerIsSafe | src/espresso_rl/application/cpbo_runtime.py:283-340 | An accepted answer leaves the run converged, awaiting or with exactly one open suggestion, the one returned; a refused one touches nothing, and no error it raises is a misuse of the service |
| Bridge.HandleEditIsSafe | src/espresso_rl/application/cpbo_runtime.py:342-450 | A processed correction or exclusion leaves the run at rest and never drops an awaited comparison silently, and no error it raises is a misuse of the service |
| Bridge.HandleControlIsSafe | src/espresso_rl/application/cpbo_runtime.py:455-504 | An accepted resume request leaves exactly one open suggestion, the one returned, and no error it raises is a misuse of the service |
| Standstill.MigrationCarriesConvergence | src/espresso_rl/application/preference_optimization.py:804-868 | A migration of a faithful run leaves it converged if and only if it was, whatever its new mode |
| Standstill.VisitStaysStuck | src/espresso_rl/application/cpbo_runtime.py:154-504 | In a faithful run converged in global-previous mode no shot, answer, correction or resume request clears convergence, adds a shot or is answered with a suggestion |
| Standstill.VisitCondition | src/espresso_rl/application/cpbo_runtime.py:154-504 | There a visit leads out if and only if it excludes a shot without which the history does not end converged; after any other visit the run is in the same position |
| Standstill.OnlyExclusionsLeadOut | src/espresso_rl/application/cpbo_runtime.py:154-504 | Over any sequence of visits such a run stays converged until one of these exclusions |
| Escapes.OneExclusionLeadsOut | src/espresso_rl/application/preference_optimization.py:547-582 | Whatever the mode and whatever is pending, a run whose history replays to convergence is freed by excluding one shot, the new shot of the comparison that converged it: the exclusion succeeds and leaves the region unconverged |
| Escapes.FreeingCondition | src/espresso_rl/application/preference_optimization.py:562-582 | An exclusion succeeds and leaves the region unconverged if and only if what the filter keeps can be rebuilt and does not end converged |
| Standstill.ExitCondition | src/espresso_rl/application/cpbo_runtime.py:154-504 | A converged run has a way out by visits; it has one that excludes no shot if and only if it judges against the incumbent |
| Standstill.WhenConvergenceHasAnExit | src/espresso_rl/application/cpbo_runtime.py:154-504 | Both in every story over one schedule, without any assumption on the state |
| Convergence.JudgementCondition | src/espresso_rl/application/preference_optimization.py:334-413 | An awaited judgement is accepted if and only if its identifier is new and it is made against the previous shot, or outside convergence with a next length the schedule allows, which only a changed schedule can violate |
| Convergence.ReconfiguredCondition | src/espresso_rl/application/preference_optimization.py:682-714 | A reconfiguration clears convergence; afterwards the history can be rebuilt if and only if no best-incumbent comparison followed a resumption, and the rebuild is converged again if and only if the run was converged or had ever been resumed |
| AuditTrails.WhereARunStarts | src/espresso_rl/application/preference_optimization.py:129-165 | A created run is active and empty and stands anew at its baseline: the grid values nearest to the given controls, at their position within limits that reach equally far on both sides of the given grind |
| AuditTrails.WhereAReconfigurationStarts | src/espresso_rl/application/preference_optimization.py:677-714 | In every story an accepted reconfiguration starts anew where the shot lies that the new mode judges against - the previous shot or the incumbent - and without a valid shot where the recipe listed first lies: initial length, no streak, no trail, no model, nothing pending; run, heads and iteration stay but for mode, seed and configuration |
| Convergence.CorrectionAfterReconfiguration | src/espresso_rl/application/preference_optimization.py:519-545 | Hence which corrections of a recipe succeed right after a reconfiguration, and that they bring convergence back in the new mode |
| Witnesses.CorrectionLeavesOnlyExclusion | src/espresso_rl/application/preference_optimization.py:519-545 | A story without a migration that ends converged in global-previous mode, where only excluding a shot leads out |
| Witnesses.MigrationLeavesOnlyExclusion | src/espresso_rl/application/preference_optimization.py:804-868 | Such a story by a change of limits and mode |
| Witnesses.ReconfigurationRefusesCorrections | src/espresso_rl/application/preference_optimization.py:974-1010 | A story that was resumed, judged and reconfigured and refuses every correction of a recipe |
| Witnesses.CorrectionBlocksTheJudgement | src/espresso_rl/application/preference_optimization.py:371-396 | A story in which a correction makes the awaited judgement and every resumption be refused |
| Repositories.Repository.constructor | src/espresso_rl/adapters/sqlite_repositories.py:591-617 | A created run holds one recipe, its state and nothing else |
| Repositories.Repository.SaveSuggestion | src/espresso_rl/adapters/sqlite_repositories.py:827-866 | Commits the recipe, the pending row and the state, or refuses and leaves every row as it was |
| Repositories.Repository.SaveShot | src/espresso_rl/adapters/sqlite_repositories.py:868-924 | Commits the shot and moves the pending suggestion to awaiting or invalid, or refuses and changes nothing |
| Repositories.Repository.SaveComparison | src/espresso_rl/adapters/sqlite_repositories.py:926-968 | Commits the comparison in key order and resolves the awaiting suggestion, or refuses and changes nothing |
| Repositories.Repository.ReplaceShot | src/espresso_rl/adapters/sqlite_repositories.py:970-1016 | Rewrites one shot, supersedes open suggestions on request, or refuses and changes nothing |
| Repositories.Repository.ReplaceHistory | src/espresso_rl/adapters/sqlite_repositories.py:1018-1083 | Replaces the comparisons by the retained ones in key order around the excluded shot, or refuses and changes nothing |
| Repositories.Repository.UpdateConfiguration | src/espresso_rl/adapters/sqlite_repositories.py:638-666 | Replaces run and state and supersedes open suggestions, or refuses and changes nothing |
| Repositories.Repository.Migrate | src/espresso_rl/adapters/sqlite_repositories.py:668-742 | Replaces run, shots and state, adds the recipes, or refuses on any of its checks and changes nothing |
| Repositories.Repository.SaveState | src/espresso_rl/adapters/sqlite_repositories.py:789-814 | Replaces the state only if nobody else wrote since it was read |
| Repositories.Repository.Deactivate | src/espresso_rl/adapters/sqlite_repositories.py:619-636 | Clears the active flag only |
| PreferenceServices.PreferenceService.SuggestNext | src/espresso_rl/application/preference_optimization.py:174-215 | The stored rows and the answer are those of the specified use case, a refusal changes nothing, and the row invariants are kept |
| PreferenceServices.PreferenceService.RecordShot | src/espresso_rl/application/preference_optimization.py:217-299 | Likewise for recording a shot |
| PreferenceServices.PreferenceService.RecordAbstention | src/espresso_rl/application/preference_optimization.py:301-332 | Likewise for an abstention |
| PreferenceServices.PreferenceService.RecordPreference | src/espresso_rl/application/preference_optimization.py:334-413 | Likewise for a judgement |
| PreferenceServices.PreferenceService.RepeatPreference | src/espresso_rl/application/preference_optimization.py:343-354 | The scan over stored comparisons accepts exactly a repetition with one label |
| PreferenceServices.PreferenceService.ResumeLocalExploration | src/espresso_rl/application/preference_optimization.py:415-477 | Likewise for a resumption |
| PreferenceServices.PreferenceService.CorrectShot | src/espresso_rl/application/preference_optimization.py:479-545 | Likewise for a correction |
| PreferenceServices.PreferenceService.ExcludeShot | src/espresso_rl/application/preference_optimization.py:547-582 | Likewise for an exclusion |
| PreferenceServices.PreferenceService.MeetActiveRun | src/espresso_rl/application/preference_optimization.py:651-714 | Keeps, retires, migrates or reconfigures the run as specified |
| PreferenceServices.PreferenceService.ReconfigureRun | src/espresso_rl/application/preference_optimization.py:682-714 | Likewise for a reconfiguration; where it starts is AuditTrails.WhereAReconfigurationStarts |
| PreferenceServices.PreferenceService.MigrateRun | src/espresso_rl/application/preference_optimization.py:804-868 | Likewise for a migration |
| PreferenceServices.PreferenceService.RebuildState | src/espresso_rl/application/preference_optimization.py:897-1020 | Computes the specified rebuilt state |
| PreferenceServices.PreferenceService.ReplayComparisons | src/espresso_rl/application/preference_optimization.py:942-1003 | The replay loop computes the recursive replay, error cases included |
| PreferenceServices.PreferenceService.RetainComparisons | src/espresso_rl/application/preference_optimization.py:1044-1089 | The retention loop computes the recursive filter whose uniqueness is proved |
| PreferenceServices.PreferenceService.RebaseShots | src/espresso_rl/application/preference_optimization.py:815-848 | The migration loop computes the recursive rebase |
| PreferenceServices.PreferenceService.CollectRecipes | src/espresso_rl/application/preference_optimization.py:881-889 | The lookup loop collects exactly the recipes of the listed shots |
| RuntimeBridges.RuntimeBridge.HandleShot | src/espresso_rl/application/cpbo_runtime.py:154-247 | Drives repository and service to exactly the specified reply and rows (Visits.ProcessedIsAsRecorded, Answers.WhatAShotIsAnswered), keeps the row invariants, raises no misuse error and leaves a processed shot's run at rest |
| RuntimeBridges.RuntimeBridge.HandleAnswer | src/espresso_rl/application/cpbo_runtime.py:283-340 | Likewise for an answer, while comparison keys grow |
| RuntimeBridges.RuntimeBridge.HandleEdit | src/espresso_rl/application/cpbo_runtime.py:342-450 | Likewise for an edited canonical shot; an awaited comparison is never dropped silently |
| RuntimeBridges.RuntimeBridge.HandleControl | src/espresso_rl/application/cpbo_runtime.py:455-504 | Likewise for a resume request: exactly one suggestion is open, the one returned |
| RecipeLaws.QuantizeProjects | src/espresso_rl/domain/cpbo.py:207-215 | Quantizing stays in bounds, is idempotent and moves an in-bounds value by at most half a step plus the nudge |
| RecipeLaws.QuantizeMonotone | src/espresso_rl/domain/cpbo.py:207-215 | Quantizing is monotone |
| RecipeLaws.QuantizeAgrees | src/espresso_rl/domain/cpbo.py:217-225 | Quantizing and observing agree on an in-bounds value if and only if the observation does not leave the range |
| RecipeLaws.ObservingQuantizedIsStable | src/espresso_rl/domain/cpbo.py:217-225 | Observing a quantized value is the identity for all in-bounds values if and only if the top cell fits the range |
| RecipeLaws.TopCellFitsExactly | src/espresso_rl/domain/cpbo.py:207-225 | The top cell fits if and only if the range leaves less than half a step over a whole number of steps |
| RecipeLaws.WholeMultipleFits | src/espresso_rl/domain/cpbo.py:207-225 | In particular it fits when the range is a whole multiple of the resolution |
| RecipeLaws.InverseUndoesNormalize | src/espresso_rl/domain/cpbo.py:296-354 | Normalizing a canonical recipe and inverting it gives the recipe back, for both grinder directions (which end is fine: RecipeLaws.PositionsOrder) |
| RecipeLaws.PositionsOrder | src/espresso_rl/domain/cpbo.py:296-336 | Of two recipes in a space the finer one has the larger first coordinate, whichever way the grinder counts, the larger dose the larger second and the larger output the larger third; the coarsest setting and the lower bounds lie at 0, the finest and the upper bounds at 1, and nothing else does |
| RecipeLaws.CreatePositions | src/espresso_rl/domain/cpbo.py:570-597 | A created recipe lies at its own controls: each coordinate is the share of the range below them, fineness counted from the coarse end |
| RecipeLaws.ObservePositions | src/espresso_rl/domain/cpbo.py:599-632 | So does an observed one, inside the limits or outside |
| RecipeLaws.PlaceableMeans | src/espresso_rl/domain/cpbo.py:599-632 | What can be observed, in numbers: the physical envelope, with dose and output that do not round to nothing |
| Stories.EveryRecipeIsPositioned | src/espresso_rl/domain/cpbo.py:570-632 | In every story each stored recipe is identified by its controls and lies at them within the limits it was made for |
| RecipeLaws.QuantizeIsNearest | src/espresso_rl/domain/cpbo.py:207-215 | Quantizing takes a value within the limits that the machine can execute, or the upper limit, and no such value is nearer, up to the tie break and the round-off tolerance |
| RecipeLaws.UnitCubeIsFeasible | src/espresso_rl/domain/cpbo.py:355-360 | A position is feasible if and only if it lies in the unit cube up to the tolerance of one billionth |
| RecipeLaws.ProposableMeans | src/espresso_rl/domain/cpbo.py:570-597 | What can be created, in numbers: every control within its bounds up to the tolerance of one billionth, with dose and output above zero on the grid |
| RecipeLaws.CreateIsCanonical | src/espresso_rl/domain/cpbo.py:570-597 | A created recipe is in bounds, in the unit cube, identified by its quantized controls, and creating it again changes nothing |
| RecipeLaws.CreateObserveAgree | src/espresso_rl/domain/cpbo.py:570-632 | In an aligned space creating and observing an in-bounds recipe agree |
| RecipeLaws.ObservedAsCreated | src/espresso_rl/domain/cpbo.py:599-632 | Correcting a shot to what it was recorded with is never a recipe change in an aligned space |
| RecipeLaws.RebaseTwice | src/espresso_rl/domain/cpbo.py:362-390 | Only the last limits a space is rebased to matter |
| RecipeLaws.RebaseHome | src/espresso_rl/domain/cpbo.py:362-390 | Rebasing a space onto its own limits is the identity |
| UploadLaws.UploadsAreSafe | src/espresso_rl/adapters/sqlite_repositories.py:1819-1979 | With one worker, every interleaving of enqueues, maintenance, deletions of records and worker steps keeps at most one row uploading, at most two unsent rows of a record and attempts that count exactly the failed and refused outcomes; what was accepted is inserted, requeued or sent again only after its record was deleted in between |
| UploadLaws.OutcomeIsMissedExactly | src/espresso_rl/adapters/supabase_upload.py:145-223 | Over every such interleaving the outcome of an upload is recorded, and the worker goes on with its batch, unless the trace of the content ends gone; then recording it raises and the run ends |
| UploadLaws.SparedStaysMarked | src/espresso_rl/adapters/sqlite_repositories.py:1895-1933 | The content stays marked in the queue as long as its record is not deleted, whatever is enqueued or purged meanwhile |
| UploadLaws.ForgottenIsGone | src/espresso_rl/adapters/sqlite_repositories.py:1401-1441 | Unless the record is stored again meanwhile, the content is gone if and only if its record was deleted since it was sent |
| UploadLaws.ForgottenUploadIsMissed | src/espresso_rl/adapters/sqlite_repositories.py:1401-1441 | A record deleted while its upload is on the wire: the server has it, the queue is empty and the run is over |
| UploadLaws.StoredAgainIsRecorded | src/espresso_rl/adapters/sqlite_repositories.py:1819-1933 | If the same content is stored again before the outcome is known, the outcome is recorded on the new row |
| UploadLaws.ForgottenContentIsSentAgain | src/espresso_rl/adapters/sqlite_repositories.py:1401-1441 | Accepted content whose record is deleted and stored again waits to be sent again |
| UploadLaws.LimitingNeverCharges | src/espresso_rl/adapters/supabase_upload.py:198-210 | However often the server rate limits, no row is ever charged an attempt |
| UploadLaws.EnqueueCondition | src/espresso_rl/adapters/sqlite_repositories.py:1819-1880 | The newest snapshot is the only one that waits if and only if its content was not accepted before and is not being sent |
| UploadLaws.RevertedContentIsLost | src/espresso_rl/adapters/sqlite_repositories.py:1827-1845 | A record that goes back to accepted content: the enqueue is dropped and the version in between stays the one that is sent last |
| UploadLaws.ReadyIsDue | src/espresso_rl/adapters/sqlite_repositories.py:1882-1893 | The ready list holds exactly the due rows, each once, oldest first |
| UploadLaws.RetriesBackOff | src/espresso_rl/adapters/supabase_upload.py:229-230 | Retry delays grow from one minute and never exceed 32 minutes, so the cap of an hour is never reached |
| UploadLaws.RetriesWait | src/espresso_rl/adapters/supabase_upload.py:198-223 | Over every interleaving, content whose upload failed or was limited is not sent again before its delay is over, whatever else happens, unless it is enqueued again |
| UploadLaws.FinishRests | src/espresso_rl/adapters/supabase_upload.py:198-223 | Its row is listed as ready if and only if the delay is over |
| UploadLaws.RefusedIsDiscarded | src/espresso_rl/adapters/supabase_upload.py:183-197 | When an upload is refused and no clock ran backwards, its row and no other is discarded |
| UploadLaws.PurgeTakesNewest | src/espresso_rl/adapters/sqlite_repositories.py:2008-2086 | A purge takes rejected rows only, and leaves none that was updated later than one it takes |
| UploadLaws.RequeuedIsDue | src/espresso_rl/adapters/sqlite_repositories.py:1953-1979 | A requeued row is due at once and starts without attempts |
| UploadLaws.AttemptsAreDated | src/espresso_rl/adapters/sqlite_repositories.py:1895-1933 | Over every interleaving a row carries the time of its last attempt if and only if it was charged one |
| UploadLaws.LimitedToMidnight | src/espresso_rl/adapters/supabase_upload.py:198-210 | A rate limit without a hint lasts to the next UTC midnight, at least a minute |
| UploadWorkers.RunServesDueRows | src/espresso_rl/adapters/supabase_upload.py:135-226 | An undisturbed run sends every due row that passes the preflight exactly once, oldest first up to the limit, and leaves nothing uploading |
| UploadWorkers.UploadWorker.RunOnce | src/espresso_rl/adapters/supabase_upload.py:135-226 | The worker's loop computes the specified run over the queue and returns the number of accepted uploads |
| UploadWorkers.UploadQueue.Enqueue | src/espresso_rl/adapters/sqlite_repositories.py:1819-1880 | The queue after enqueueing, coalescing included |
| UploadWorkers.UploadQueue.ListReady | src/espresso_rl/adapters/sqlite_repositories.py:1882-1893 | The due rows in order of age, up to the limit |
| UploadWorkers.UploadQueue.UpdateStatus | src/espresso_rl/adapters/sqlite_repositories.py:1895-1933 | Rewrites one row and charges failures, or reports an unknown identifier |
| UploadWorkers.UploadQueue.Requeue | src/espresso_rl/adapters/sqlite_repositories.py:1953-1979 | Rearms a rejected row only |
| UploadWorkers.UploadQueue.PurgeRejected | src/espresso_rl/adapters/sqlite_repositories.py:2008-2086 | Removes the most recently updated rejected rows up to the limit and counts them |
| UploadWorkers.UploadQueue.Forget | src/espresso_rl/adapters/sqlite_repositories.py:1401-1441 | Removes exactly the rows of one record, whatever their status, and counts them |
| LiveTelemetry.GapsAreExact | src/espresso_rl/application/live_telemetry.py:82-140 | For every order of events with any duplicates: while a session is open its sample count is the number of stored samples, its gap count the number of sequence numbers that never arrived, and they sum to the last sequence plus one, or the final one plus one once ended |
| LiveTelemetry.NeverActiveAgain | src/espresso_rl/application/live_telemetry.py:43-165 | A session that left the active state never becomes active again |
| LiveTelemetry.RepeatedSampleIsHarmless | src/espresso_rl/application/live_telemetry.py:82-90 | A stored sample that arrives again later changes nothing: accepted while the samples are kept, refused as inactive afterwards |
| LiveTelemetry.RepeatedEndIsHarmless | src/espresso_rl/application/live_telemetry.py:113-119 | An accepted end may be repeated at any later time without effect |
| LiveTelemetry.StartExpires | src/espresso_rl/application/live_telemetry.py:43-80 | A start expires exactly the open sessions not touched for 24 hours, deletes their samples and leaves every other session and sample as it is |
| LiveTelemetry.SamplesAreTimely | src/espresso_rl/application/live_telemetry.py:82-111 | For every order of events the stored samples of a session are its owner's, at their own numbers, at the start plus the elapsed time |
| LiveTelemetry.AppendCondition | src/espresso_rl/application/live_telemetry.py:82-111 | A sample is accepted if and only if it repeats a stored one, or is the next of an active session of its owner at the right time; only then is it stored, and nothing else changes but its session's last number, counters and time |
| LiveTelemetry.EndCondition | src/espresso_rl/application/live_telemetry.py:113-140 | An end is accepted if and only if it repeats the stored one, or the session is active, no stored sample is later and its time is right |
| LiveTelemetry.ReconcileSettles | src/espresso_rl/application/live_telemetry.py:142-165 | The stored shot settles its session at that time; one of another owner expires it; either way the samples go |
| LiveTelemetry.StepStamps | src/espresso_rl/application/live_telemetry.py:43-165 | Every step that changes a session stamps it with its time |
| LiveShots.TelemetryService.Start | src/espresso_rl/application/live_telemetry.py:43-80 | Rows and answer of a start, with the expiry that precedes it; the counters of every open session stay exact |
| LiveShots.TelemetryService.Append | src/espresso_rl/application/live_telemetry.py:82-111 | Rows and answer of a sample; the counters stay exact |
| LiveShots.TelemetryService.End | src/espresso_rl/application/live_telemetry.py:113-140 | Rows and answer of an end; the counters stay exact up to the announced final sequence |
| LiveShots.TelemetryService.ReconcileCompletedShot | src/espresso_rl/application/live_telemetry.py:142-165 | Rows and answer when the stored shot takes over; the counters stay exact |
| LiveShots.SessionRepository.ExpireBefore | src/espresso_rl/adapters/sqlite_repositories.py:1331-1349 | Expires exactly the outdated open sessions, deletes their samples and counts them |
| ShotTail.TrimIsAlignedAndIdempotent | src/espresso_rl/adapters/gaggimate_mqtt.py:946-1061 | On aligned channels over an increasing time axis, trimming cuts every channel to one common prefix of at least two samples (or all of fewer), and trimming again changes nothing |
| ShotTail.TrimKeepsTheShot | src/espresso_rl/adapters/gaggimate_mqtt.py:946-1061 | Over an increasing axis a trim keeps exactly the samples within the shot time and the first two; of these, exactly those before the first idle one and two at most from it on, or all without an idle one |
| ShotTail.TimeKeepsTheShot | src/espresso_rl/adapters/gaggimate_mqtt.py:946-965 | The first pass keeps sample i of every channel if and only if i is below two, no positive shot time is known, or its time is at most the shot time in milliseconds |
| ShotTail.ActiveMeans | src/espresso_rl/adapters/gaggimate_mqtt.py:1064-1066 | A sample is active if and only if its target pressure, or else its target flow, is a number more than a millionth away from zero |
| ShotTail.IdleMeans | src/espresso_rl/adapters/gaggimate_mqtt.py:1025-1033 | A sample is idle if and only if each of pump mode and valve that is recorded says so |
| ShotTail.ControlsMean | src/espresso_rl/adapters/gaggimate_mqtt.py:1001-1016 | An idle tail is looked for if and only if there are three samples, both targets and one of pump mode and valve, each as long as the axis |
| ShotTail.SettledKeepMeans | src/espresso_rl/adapters/gaggimate_mqtt.py:1040-1061 | From the idle sample on exactly as many samples are kept as the weight stays within a gram of the one before, two at most |
| ShotTail.TailKeepsTheShot | src/espresso_rl/adapters/gaggimate_mqtt.py:968-1061 | The tail pass keeps every sample before the first idle one after an active one and at most two from it on; without one it changes nothing |
| ShotTail.FindTailIsFirst | src/espresso_rl/adapters/gaggimate_mqtt.py:1019-1037 | The sample found is idle, follows an active one, and no earlier one is both |
| ShotTail.CutTailIsIdempotent | src/espresso_rl/adapters/gaggimate_mqtt.py:968-976 | Cutting the tail twice is cutting it once |
| ShotTrimming.ShotPayload.TrimToShotTime | src/espresso_rl/adapters/gaggimate_mqtt.py:946-965 | The in-place trim leaves exactly the specified channels and axis (ShotTail.TrimKeepsTheShot); an unreadable sample leaves the first cut in place |
| ShotTrimming.ShotPayload.TrimSamples | src/espresso_rl/adapters/gaggimate_mqtt.py:979-998 | Every channel of the axis' length is cut, the others are left alone |
| ShotTrimming.ShotPayload.InactiveTailKeepCount | src/espresso_rl/adapters/gaggimate_mqtt.py:1001-1037 | The scan computes the specified count |
| ShotTrimming.ShotPayload.SettledTailKeepCount | src/espresso_rl/adapters/gaggimate_mqtt.py:1040-1061 | The settling loop computes the specified count |
| StateCodec.StateRoundTrip | src/espresso_rl/adapters/cpbo_serialization.py:274-367 | Decoding undoes encoding for a valid state with any length of history if and only if no identifier is the empty text |
| StateCodec.ReadingIsIdempotent | src/espresso_rl/adapters/cpbo_serialization.py:274-367 | Whatever can be read, legacy rows included, is a valid state and survives being stored and read again |
| StateCodec.TransitionRoundTrip | src/espresso_rl/adapters/cpbo_serialization.py:517-599 | Decoding undoes encoding for every valid transition |
| StateCodec.LegacyRegion | src/espresso_rl/adapters/cpbo_serialization.py:324-358 | Rows without the convergence and transition members decode as what they say, unconverged and with empty history |
| StateCodec.RunRoundTrip | src/espresso_rl/adapters/cpbo_serialization.py:55-97 | Decoding undoes encoding for a valid run if and only if its basket is not the manufactured one |
| StateCodec.RunMigrationIsIdempotent | src/espresso_rl/adapters/cpbo_serialization.py:69-97 | The basket migration happens once: what was decoded survives being stored and read again |

## Left out

- Several runs, users and contexts at once: the model holds the rows of one run; lookups across runs, ownership checks, `reset_owner` and the legacy merging in `find_active_run` are not modelled.
- The branches of `initialize` for a run that already exists: the bridge calls it only when there is none.
- Gaussian-process inference, acquisition, trace features and recommendations: what the optimizer selects is a parameter of every step, its checks and the shape of its suggestion are modelled.
- Floating point: numbers are exact; the last decimal rounding in `quantize` is the identity on the decimal grid and is left out.
- Recipe identifiers: the order of their hashes is arbitrary, and two that it does not tell apart are listed in the order of insertion.
- Shot times, telemetry and references; shot metadata is a map plus the reserved abstention entry, so callers cannot set that entry.
- The clock is read once per use case.
- Canonical-shot lookups, ownership and mode checks at the head of the bridge's handlers, the settings refresh, status payloads and machine recommendations.
- Threads, connections and SQL: each repository call is one atomic step, and the PostgreSQL repositories are not modelled.
- Runs.LiveEqualsReplay: excludes reconfigurations, because the code resets the trust region there without replaying; the heads still agree (Runs.HeadsEqualReplay).
- Recommendation rows in the upload queue: their identifiers are not derived from the content, so the statements about content do not apply to them.
- Upload signing, hashing and HTTP: a digest is an injective identifier, and the server's answer is a parameter.
- Deleting useless shots and resetting all data: several deletions of single records, in the upload queue.
- Preflight-failure notes and counters of the upload queue, and the deletion of linked records when an administrator purges.
- Rows with equal times when the newest rejected upload is chosen: the database leaves the order open, the model takes the earlier row.
- Live samples: all measured channels are one value, and the bounds on event fields are not checked.
- ShotTail.TrimIsAlignedAndIdempotent: samples that are numbers written as text are treated as unreadable, while the code parses them.
- StateCodec.StateRoundTrip: numbers and identifiers held in other JSON types than the encoder writes are refused, while Python's conversions accept some of them; sizes and JSON text are not modelled.
- StateCodec.RunRoundTrip: the recipe space and taste goal are carried as they are.
- Decoders of recipes, shots, comparisons and suggestions: the same pattern as the state decoder without optional members of interest.
