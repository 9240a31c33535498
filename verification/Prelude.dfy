/** Shared values: JavaScript text as UTF-16 code units, optional results, and lists. */
module Prelude {

  newtype Unit = u: int | 0 <= u < 0x10000
  type Text = seq<Unit>

  datatype Option<+T> = None | Some(value: T) {
    predicate IsFailure() { None? }
    function PropagateFailure<U>(): Option<U> requires None? { None }
    function Extract(): T requires Some? { value }
  }

  ghost predicate Distinct<T>(s: seq<T>) { forall i, j | 0 <= i < j < |s| :: s[i] != s[j] }

  /** The newest `n` elements. */
  function Newest<T>(s: seq<T>, n: nat): (r: seq<T>)
    requires n <= |s|
    ensures |r| == n
  {
    s[|s| - n..]
  }

  ghost predicate Suffix<T>(s: seq<T>, of: seq<T>) { |s| <= |of| && Newest(of, |s|) == s }

  lemma ConcatAssociates<T>(a: seq<T>, b: seq<T>, c: seq<T>)
    ensures (a + b) + c == a + (b + c)
  {
  }
}
