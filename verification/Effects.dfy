/** How an effect on the outside world can end.

    The deployment helpers talk to GitHub, systemd and the filesystem. Any such
    call can return, can raise (before or after it took effect), and the process
    can die at any instruction. `Raised` unwinds through Python's `finally`
    blocks; `Died` does not. */
module Effects {
  datatype Option<+T> = None | Some(value: T)

  datatype Halt = Raised | Died

  datatype Result<+T> = Ok(value: T) | Stop(halt: Halt) {
    predicate IsFailure() {
      Stop?
    }

    function PropagateFailure<U>(): Result<U>
      requires Stop?
    {
      Stop(halt)
    }

    function Extract(): T
      requires Ok?
    {
      value
    }

    /** The call ended without the process dying. */
    predicate Survived() {
      Ok? || halt == Raised
    }
  }

  /** How one step of a call ends; on a quiet host nothing fails. */
  method Fate(quiet: bool) returns (halt: Option<Halt>)
    ensures quiet ==> halt == None
  {
    if quiet {
      return None;
    }
    halt := *;
  }

  /** A check of code or services that are not part of the model; on a quiet host it answers
      as given. */
  method Ask(quiet: bool, agrees: bool) returns (r: Result<bool>)
    ensures quiet ==> r == Ok(agrees)
  {
    var halt := Fate(quiet);
    var answer: bool := *;
    return if halt.Some? then Stop(halt.value) else Ok(if quiet then agrees else answer);
  }
}
