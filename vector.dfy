/** The caller-owned `std::vector` that the mesh and orbit generators append to. */
module Vectors {

  class Vector<T> {
    /** The elements currently held, in order. */
    var elems: seq<T>

    /** An empty vector. */
    constructor ()
      ensures elems == []
    {
      elems := [];
    }

    /** `push_back`: append one element at the end. */
    method PushBack(x: T)
      modifies this
      ensures elems == old(elems) + [x]
    {
      elems := elems + [x];
    }
  }

  /** Three consecutive `push_back` calls, as the generators make for each point
      and each triangle. */
  method PushThree<T>(v: Vector<T>, a: T, b: T, c: T)
    modifies v
    ensures v.elems == old(v.elems) + [a, b, c]
  {
    v.PushBack(a);
    v.PushBack(b);
    v.PushBack(c);
  }

  /** Appending `b` and then `c` appends `b + c`. */
  lemma AppendAssoc<T>(a: seq<T>, b: seq<T>, c: seq<T>)
    ensures a + b + c == a + (b + c)
  {
  }
}
