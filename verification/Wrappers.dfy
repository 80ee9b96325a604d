/** Small things shared by several modules. */
module Wrappers {
  datatype Option<+T> = None | Some(value: T)

  function IndexIn<T(==)>(xs: seq<T>, x: T): (k: nat)
    requires x in xs
    ensures k < |xs| && xs[k] == x
  {
    if xs[0] == x then 0 else 1 + IndexIn(xs[1..], x)
  }

  lemma Nonempty(xs: set<int>)
    ensures xs == {} || exists x :: x in xs
  {
    if forall x :: x !in xs { assert xs == {}; }
  }
}
