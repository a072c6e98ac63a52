/** The success/failure carriers shared by the whole model. */
module Wrappers {

  datatype Option<+T> = None | Some(value: T)

  /** Stands for the source's exceptions and error returns; usable with `:-`. */
  datatype Result<+T, +E> = Ok(value: T) | Err(error: E) {
    predicate IsFailure() {
      Err?
    }

    function PropagateFailure<U>(): Result<U, E>
      requires Err?
    {
      Err(error)
    }

    function Extract(): T
      requires Ok?
    {
      value
    }
  }

  /** How replacing a file by a temporary ends: it returns, or it fails before or after the rename. */
  datatype SaveOutcome = Saved | FailedBefore | FailedAfter {
    predicate Replaced() {
      this != FailedBefore
    }
  }

  /** What may be on disk after a save of `x`, where the last candidate is what readers see. */
  function AfterSave<T>(candidates: seq<T>, x: T, outcome: SaveOutcome): seq<T> {
    match outcome
    case Saved => [x]
    case FailedBefore => candidates
    case FailedAfter => candidates + [x]
  }
}
