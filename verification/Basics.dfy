/** Small notions shared by the models of this project. */
module Basics {
  function Min(a: int, b: int): int {
    if a < b then a else b
  }

  function Max(a: int, b: int): int {
    if a < b then b else a
  }

  /** How much a condition adds to a count. */
  function One(b: bool): nat {
    if b then 1 else 0
  }

  function Elements<T(==)>(s: seq<T>): set<T> {
    set x | x in s
  }

  lemma Member<T>(s: set<T>) returns (x: T)
    requires s != {}
    ensures x in s
  {
    x :| x in s;
  }
}
