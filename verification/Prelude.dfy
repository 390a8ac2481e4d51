/** Small things several modules share. */
module Prelude {
  datatype Option<+T> = None | Some(value: T)

  /** n copies of x. */
  function Repeat<T>(x: T, n: nat): (s: seq<T>)
    ensures |s| == n && forall i :: 0 <= i < n ==> s[i] == x
  {
    if n == 0 then [] else Repeat(x, n - 1) + [x]
  }
}

/** The steps of a run, taken from the end. */
module Histories {
  function Before<T>(steps: seq<T>): seq<T>
    requires steps != []
  {
    steps[..|steps| - 1]
  }

  function Last<T>(steps: seq<T>): T
    requires steps != []
  {
    steps[|steps| - 1]
  }
}
