/** What the other modules share: optional values, subsets, and removal from lists. */
module Wrappers {
  datatype Option<+T> = None | Some(value: T)

  lemma {:induction false} SubsetSize<T>(a: set<T>, b: set<T>)
    requires a <= b
    ensures |a| <= |b|
  {
    if x :| x in a {
      SubsetSize(a - {x}, b - {x});
    }
  }

  /** The list without an element. */
  function Without<T(==)>(order: seq<T>, k: T): seq<T> {
    if order == [] then [] else
      var rest := Without(order[..|order| - 1], k);
      if order[|order| - 1] == k then rest else rest + [order[|order| - 1]]
  }
}
