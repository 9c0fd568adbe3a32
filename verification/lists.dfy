/** A `java.util.ArrayList` object: a sequence that every holder of the reference sees change. */
module Lists {

  class JList<T> {
    var elems: seq<T>

    /** `new ArrayList<>()`. */
    constructor ()
      ensures elems == []
    {
      elems := [];
    }

    /** `List.add`: appends one element. */
    method Add(x: T)
      modifies this
      ensures elems == old(elems) + [x]
    {
      elems := elems + [x];
    }

    /** `List.addAll`: appends the elements of `other` as they were before the call (`other` may be this list). */
    method AddAll(other: JList<T>)
      modifies this
      ensures elems == old(elems) + old(other.elems)
    {
      elems := elems + other.elems;
    }

    /** `List.addAll` with a collection value that no other code holds. */
    method AddSeq(xs: seq<T>)
      modifies this
      ensures elems == old(elems) + xs
    {
      elems := elems + xs;
    }
  }
}
