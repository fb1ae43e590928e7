/** Small shared types: optional values and outcomes that may be refused. */
module Prelude {

  datatype Option<+T> = None | Some(value: T)

  /** The reasons for which an operation raises. */
  datatype Refusal =
    | OutsideBounds
    | OutsideEnvelope
    | NotPositive
    | DirectionDiffers
    | UnknownRun
    | UnknownShot
    | MissingRecipe
    | RecipeCollision
    | DuplicateRow
    | SpansRuns
    | NotActive
    | Stale
    | PreferenceDue
    | SuggestionMissing
    | SuggestionOpen
    | SuggestionMismatch
    | NoPendingSuggestion
    | RecipeMismatch
    | NotBaseline
    | NotValidShot
    | AnchorChanged
    | NotPendingShot
    | LabelConflict
    | NotNewer
    | LocallyConverged
    | NotConverged
    | WrongMode
    | WorkPending
    | NoIncumbent
    | NoTransition
    | BadTransition
    | DuplicateMarker
    | MarkerWithoutConvergence
    | MarkerWithoutHistory
    | MissingValidShot
    | ConfigurationDiffers
    | BadHistory
    | ObservationDiffers
    | NoValidShot
    | EngineFailed
    | NoShots
    | SessionUnknown
    | SessionConflict
    | SessionInactive
    | SampleConflict
    | SequenceRegressed
    | TimestampMismatch
    | EndConflict
    | MalformedSample
    | BadJson

  /** What an operation that may raise leaves behind: a value, or the reason it raised. */
  datatype Result<+T> = Ok(value: T) | Err(why: Refusal) {
    predicate IsFailure() { Err? }

    function PropagateFailure<U>(): (r: Result<U>)
      requires Err?
    {
      Err(why)
    }

    function Extract(): T
      requires Ok?
    {
      value
    }
  }

  function Need(condition: bool, why: Refusal): Result<()>
  {
    if condition then Ok(()) else Err(why)
  }

  function MinReal(a: real, b: real): real { if a <= b then a else b }

  function MaxReal(a: real, b: real): real { if a >= b then a else b }
}
