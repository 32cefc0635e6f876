/** Small shared datatypes. `Outcome` is failure-compatible: `:-` propagates `Failed`, which stands
    for an operation that returns an error (inside a transaction: that rolls back). */
module Wrappers {
  datatype Option<+T> = None | Some(value: T)

  datatype Outcome<+T> = Done(value: T) | Failed {
    predicate IsFailure() { Failed? }

    function PropagateFailure<U>(): Outcome<U>
      requires Failed?
    {
      Failed
    }

    function Extract(): T
      requires Done?
    {
      value
    }
  }

  lemma SubsetSize<T>(a: set<T>, b: set<T>)
    requires a <= b
    ensures |a| <= |b|
  {
    assert b == a + (b - a);
  }
}
