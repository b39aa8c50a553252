/** What several modules share. */
module Basics {
  datatype Option<+T> = None | Some(value: T)

  /** What a call leaves its caller with: a result, or an exception. */
  datatype Outcome<+T> = Returned(value: T) | Threw

  /** Some element of a set, in proofs. */
  ghost function SomeOf<T>(all: set<T>): (some: T)
    requires all != {}
    ensures some in all
  {
    var some :| some in all;
    some
  }

  /** Any element of a set. */
  method AnyOf<T(==)>(all: set<T>) returns (some: T)
    requires all != {}
    ensures some in all
  {
    some :| some in all;
  }
}
