/** Swift's optional values: `nil` is None, a present value is Some. */
module Wrappers {

  datatype Option<+T> = None | Some(value: T) {

    /** `:-` on an Option stops at the first None, like a `guard let` chain. */
    predicate IsFailure() {
      None?
    }

    function PropagateFailure<U>(): Option<U>
      requires None?
    {
      None
    }

    function Extract(): T
      requires Some?
    {
      value
    }
  }
}
