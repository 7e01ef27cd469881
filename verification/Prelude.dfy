/** Small shared vocabulary: optional values and counting over sequences. */
module Prelude {
  datatype Option<+T> = None | Some(value: T)

  /** The number of elements of `s` that satisfy `p`. */
  function CountIf<T>(p: T -> bool, s: seq<T>): nat
  {
    if s == [] then 0
    else CountIf(p, s[..|s| - 1]) + (if p(s[|s| - 1]) then 1 else 0)
  }

  lemma CountIfAppend<T>(p: T -> bool, s: seq<T>, x: T)
    ensures CountIf(p, s + [x]) == CountIf(p, s) + (if p(x) then 1 else 0)
  {
    assert (s + [x])[..|s|] == s;
  }

  /** Some element of a non-empty set: the order in which a hash table is walked is not fixed. */
  method Pick<T(==)>(s: set<T>) returns (x: T)
    requires s != {}
    ensures x in s
  {
    x :| x in s;
  }
}
