/** Datatypes shared by every module of the project. */
module Basics {

  datatype Option<+T> = None | Some(value: T)

  datatype Result<+T, +E> = Ok(value: T) | Err(error: E)

  /** `s` without its last element, and that element. */
  function Init<T>(s: seq<T>): (r: seq<T>)
    requires s != []
    ensures r + [Last(s)] == s
  {
    s[..|s| - 1]
  }

  function Last<T>(s: seq<T>): T
    requires s != []
  {
    s[|s| - 1]
  }

  /**
   `order` lists every element of `xs` exactly once: the order in which a loop over an unordered collection
   visited it.
   */
  ghost predicate Enumerates<T(!new)>(order: seq<T>, xs: set<T>) {
    && (forall i :: 0 <= i < |order| ==> order[i] in xs)
    && (forall x :: x in xs ==> x in order)
    && (forall i, j :: 0 <= i < j < |order| ==> order[i] != order[j])
  }
}
