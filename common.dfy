/** Values shared by the models of the command line and of the client manager. */
module Common {

  /** Python's `Optional[T]`: `None` or a present value. */
  datatype Option<+T> = None | Some(value: T)

  /** The outcome of an operation that may raise: its value, or the exception it raises. */
  datatype Result<+T, +E> = Ok(value: T) | Err(error: E)

  /** The set of the elements of a list, as Python's `set(xs)` builds it. */
  function Elements<T(!new)>(xs: seq<T>): (s: set<T>)
    ensures forall x :: x in s <==> x in xs
  {
    set x | x in xs
  }

  /** Building a set never adds elements: duplicates collapse, nothing else changes. */
  lemma {:induction false} ElementsSize<T(!new)>(xs: seq<T>)
    ensures |Elements(xs)| <= |xs|
    ensures xs != [] ==> |Elements(xs)| > 0
  {
    if xs != [] {
      var init := xs[..|xs| - 1];
      ElementsSize(init);
      assert Elements(xs) == Elements(init) + {xs[|xs| - 1]} by {
        forall x ensures x in Elements(xs) <==> x in Elements(init) + {xs[|xs| - 1]} {
          if x in xs {
            var k :| 0 <= k < |xs| && xs[k] == x;
            if k < |xs| - 1 { assert init[k] == x; }
          }
        }
      }
    }
  }
}
