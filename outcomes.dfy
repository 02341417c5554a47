/** The exceptions raised by the pi-calculus syntax module, as values. */
module Outcomes {

  /** Why an operation gave up. Each constructor stands for one exception of the source. */
  datatype Failure =
    /** `assert` in the `Parallel` constructor: fewer than two children, or a child that is itself parallel */
    | AssertionFailed
    /** "Call to undefined '<name>'" raised by `def_unfold_call` */
    | UndefinedCall(defName: string)
    /** "Duplicate private variable: <v>"; carries every clashing name (the message names one of them) */
    | DuplicatePrivate(names: set<string>)
    /** "Duplicate input variable: <v>"; carries every clashing name (the message names one of them) */
    | DuplicateInput(names: set<string>)
    /** TypeError: `Term.subst` is declared with two parameters but is called with one */
    | ArityTypeError
    /** RuntimeError: a dictionary was changed in size while being iterated over */
    | DictChangedSize
    /** The analysis fixpoint used up its iteration budget (the source would still be running) */
    | OutOfFuel

  datatype Result<+T> = Ok(value: T) | Err(error: Failure)
}
