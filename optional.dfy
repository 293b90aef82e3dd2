/** Failure-compatible wrappers shared by the model: `Option` stands for a
    JavaScript value that may be `undefined`/`null`, `Result` for a step that
    either yields a value or throws an `Error` carrying a message. */
module Optional {

  datatype Option<+T> = None | Some(value: T) {

    predicate IsFailure() {
      None?
    }

    function PropagateFailure<U>(): Option<U>
      requires None?
    {
      None
    }

    function Extract(): T
      requires Some?
    {
      value
    }
  }

  datatype Result<+T> = Ok(value: T) | Err(message: string)
}
