/** Optional values (Java's nullable references) and results (a value or the exception raised instead). */
module Wrappers {

  /** A Java reference that may be `null`: `None` stands for `null`. */
  datatype Option<+T> = None | Some(value: T)

  /** The outcome of a Java call that either returns a value or throws. */
  datatype Result<+T, +E> = Success(value: T) | Failure(error: E)

  /** No element is `null`. */
  predicate AllSome<T>(xs: seq<Option<T>>)
  {
    forall i :: 0 <= i < |xs| ==> xs[i].Some?
  }

  /** The elements of a list without `null`s. */
  function Values<T>(xs: seq<Option<T>>): (r: seq<T>)
    requires AllSome(xs)
    ensures |r| == |xs| && forall i :: 0 <= i < |xs| ==> xs[i] == Some(r[i])
  {
    if xs == [] then [] else [xs[0].value] + Values(xs[1..])
  }

  /** Appending a non-`null` element appends its value. */
  lemma ValuesSnoc<T>(xs: seq<Option<T>>, x: Option<T>)
    requires AllSome(xs) && x.Some?
    ensures AllSome(xs + [x]) && Values(xs + [x]) == Values(xs) + [x.value]
  {
  }
}
