/** Shared vocabulary: optional values, as the source's nullable columns and pointers. */
module Prelude {

  datatype Option<+T> = None | Some(value: T) {

    /** SQL's COALESCE(this, default). */
    function Or(default: Option<T>): Option<T> {
      if Some? then this else default
    }

    /** The value, or `default` when there is none. */
    function GetOr(default: T): T {
      if Some? then value else default
    }
  }

  /** For loops that take the elements of a set one by one. */
  lemma Inhabited(s: set<int>)
    requires s != {}
    ensures exists x: int :: x in s
  {
    assert (forall x: int :: x !in s) ==> s == {};
  }
}
