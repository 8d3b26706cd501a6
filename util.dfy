/** Failure-carrying wrappers used for decode outcomes. */
module Wrappers {

  datatype Option<+T> = None | Some(value: T)

  /** The outcome of a decode: the decoded value, or the error that stopped it. */
  datatype Result<+T, +E> = Ok(value: T) | Err(error: E)
}

/** Element-wise mapping over sequences: the meaning of Go's `for ... append` loops. */
module Seqs {

  /** `f` applied to every element of `s`, in order. */
  function Map<A, B>(f: A -> B, s: seq<A>): (r: seq<B>)
    ensures |r| == |s|
    ensures forall i :: 0 <= i < |s| ==> r[i] == f(s[i])
  {
    if |s| == 0 then [] else Map(f, s[..|s| - 1]) + [f(s[|s| - 1])]
  }

  /** Mapping one element more extends the mapped prefix by that element's image. */
  lemma MapSnoc<A, B>(f: A -> B, s: seq<A>, k: nat)
    requires k < |s|
    ensures Map(f, s[..k + 1]) == Map(f, s[..k]) + [f(s[k])]
  {
  }
}
