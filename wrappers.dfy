/** Option stands for JavaScript's `undefined`: a value that may be absent. */
module Wrappers {

  datatype Option<+T> = None | Some(value: T)

  /** What `n` calls that each return `undefined` report, in turn. */
  function Nones<T>(n: nat): (r: seq<Option<T>>)
    ensures |r| == n && forall o | o in r :: o.None?
  {
    if n == 0 then [] else Nones(n - 1) + [None]
  }

  /** Two runs of absent results in turn are one longer run. */
  lemma {:induction false} NonesAppend<T>(m: nat, n: nat)
    ensures Nones<T>(m) + Nones<T>(n) == Nones<T>(m + n)
  {
    if n > 0 {
      NonesAppend<T>(m, n - 1);
      assert Nones<T>(m) + Nones<T>(n) == (Nones<T>(m) + Nones<T>(n - 1)) + [None];
    }
  }
}
