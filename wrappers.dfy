/** Option and Result, the two failure-carrying shapes the launcher's code uses
    (Rust's `Option` and `anyhow::Result`). */
module Wrappers {

  datatype Option<+T> = None | Some(value: T) {

    /** Rust's `unwrap_or`: the carried value, or `default` when absent. */
    function UnwrapOr(default: T): T {
      match this
      case Some(v) => v
      case None => default
    }
  }

  datatype Result<+T, +E> = Ok(value: T) | Err(error: E) {

    predicate IsFailure() {
      Err?
    }

    function PropagateFailure<U>(): Result<U, E>
      requires Err?
    {
      Err(error)
    }

    function Extract(): T
      requires Ok?
    {
      value
    }
  }
}

/** The errors the launcher reports; each one ends the run with a non-zero status. */
module Errors {

  datatype Error =
    | HomeUnresolved                  // `~/` path while $HOME is unset
    | ConfigUnreadable                // the config file could not be read or decoded
    | UnsupportedVersion(version: nat)
    | ProfileFlagRequired             // --config given without --profile
    | ProfileNotFound(name: string)
    | RootRequired                    // root mode without a root
    | NoCommand                       // nothing to run
    | LandlockRequired                // --require-landlock on a kernel without Landlock
    | EmptyCommand                    // run_command called with an empty vector
    | NotADirectory(path: string)     // working_dir is not a directory
    | RulesetCreateFailed
    | AddRuleFailed(path: string)
    | RestrictFailed
    | SpawnFailed
}
