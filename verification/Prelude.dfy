/** Small shared datatypes. */
module Prelude {
  datatype Option<+T> = None | Some(value: T)

  datatype Result<+T, +E> = Ok(value: T) | Err(error: E)

  /** No element occurs twice. */
  ghost predicate Distinct<T>(xs: seq<T>) {
    forall i, j :: 0 <= i < j < |xs| ==> xs[i] != xs[j]
  }

  /** There is always a number that has not been used. */
  lemma Unused(used: set<nat>) returns (id: nat)
    ensures id !in used
    ensures forall x :: x in used ==> x < id
  {
    if used == {} {
      id := 0;
    } else {
      var x :| x in used;
      var y := Unused(used - {x});
      assert forall z :: z in used ==> z == x || z in used - {x};
      id := if x < y then y else x + 1;
    }
  }
}
