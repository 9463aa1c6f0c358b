/** Optional values, results with an error, bytes, and numbers not used yet. */
module Wrappers {

  type Byte = b: int | 0 <= b < 256

  datatype Option<+T> = None | Some(value: T)

  datatype Result<+T, +E> = Ok(value: T) | Err(error: E)

  lemma {:induction false} FreshNat(xs: set<nat>) returns (n: nat)
    ensures n !in xs
  {
    n := 0;
    var rest := xs;
    while rest != {}
      invariant rest <= xs
      invariant forall x :: x in xs && x !in rest ==> x < n
      decreases rest
    {
      var x :| x in rest;
      if n <= x {
        n := x + 1;
      }
      rest := rest - {x};
    }
  }
}
