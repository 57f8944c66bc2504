/** Values that may be absent: SQL NULLs, Python's None. */
module Wrappers {
  datatype Option<+T> = None | Some(value: T)
}

/** Taking some element of a set, where the order of iteration is not ours to choose. */
module Sets {
  lemma Any<T>(s: set<T>) returns (x: T)
    requires s != {}
    ensures x in s
  {
    x :| x in s;
  }

  method Pick<T(0)>(s: set<T>) returns (x: T)
    requires s != {}
    ensures x in s
  {
    x :| x in s;
  }
}

/** How the database orders a nullable column. */
module SqlOrder {
  import opened Wrappers

  /** ORDER BY column ASC with NULLs last, which is the default: a comes strictly before b. */
  predicate AscNullsLast(a: Option<int>, b: Option<int>) {
    match (a, b)
    case (Some(x), Some(y)) => x < y
    case (Some(_), None) => true
    case (None, _) => false
  }
}

module Bounds {
  function Min(a: int, b: int): int { if a <= b then a else b }

  function Max(a: int, b: int): int { if a >= b then a else b }
}
