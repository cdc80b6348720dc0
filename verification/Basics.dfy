/** Types every component uses. */
module Basics {
  datatype Option<+T> = None | Some(value: T) {
    predicate IsFailure() { None? }

    function PropagateFailure<U>(): Option<U>
      requires None?
    {
      None
    }

    function Extract(): T
      requires Some?
    {
      value
    }
  }

  datatype Result<+T, +E> = Ok(value: T) | Err(error: E)

  /** Where a run of a state machine leads: Stuck when some event of the run was not possible. */
  datatype Outcome<+S> = Stuck | After(state: S)

  type Byte = b: nat | b < 256
}
