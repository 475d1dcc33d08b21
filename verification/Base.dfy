/** Small shared vocabulary. */
module Base {

  datatype Option<+T> = None | Some(value: T) {
    function UnwrapOr(default: T): T {
      if Some? then value else default
    }
  }

  /** A field of an update: left alone, or set to a value. */
  datatype Change<+T> = Keep | Set(value: T) {
    function On(current: T): T {
      match this
      case Keep => current
      case Set(v) => v
    }
  }

  type StepId = string
  type UserId = string

  /** Error texts, kept symbolic: which sentence, about which subject. */
  datatype Message =
    | Text(text: string)
    | Retrying(attempt: nat, delayMs: int, cause: Message)
    | NoSuchStep(id: StepId)
    | NoSuchPosition(position: int)
    | Backwards(position: int)
    | StepFailed(step: string, cause: Message)

  function Max(a: int, b: int): int { if a < b then b else a }

  function Min(a: int, b: int): int { if a < b then a else b }
}
