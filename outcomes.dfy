/** Outcomes shared by every step of the compiler.

    `Result` is the outcome of a step that may hit an uncaught exception of the
    implementation (a missing key, a value of the wrong type, a path outside the
    root, a recursion that goes too deep).  The implementation never catches those:
    they end the whole run, and any errors gathered so far are lost with them, so
    the model keeps no reason and no partial state in `Crash`. */
module Outcomes {

  datatype Option<+T> = None | Some(value: T)

  datatype Result<+T> = Ok(value: T) | Crash {

    predicate IsFailure() {
      Crash?
    }

    function PropagateFailure<U>(): Result<U>
      requires Crash?
    {
      Crash
    }

    function Extract(): T
      requires Ok?
    {
      value
    }
  }
}
