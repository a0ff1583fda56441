/** Optional values and results, standing for the `null`/`undefined` and
    thrown-error outcomes of the planner's TypeScript code. */
module Basics {

  datatype Option<+T> = None | Some(value: T) {
    /** The value, or `default` when there is none (JavaScript's `x ?? default`). */
    function GetOr(default: T): T {
      match this
      case Some(v) => v
      case None => default
    }
  }

  datatype Result<+R, +E> = Ok(value: R) | Err(error: E)

  /** `xs.map((x, i) => f(x, i))`, built front to back. */
  function MapIndexed<A, B>(f: (A, nat) -> B, xs: seq<A>): (r: seq<B>)
    ensures |r| == |xs|
  {
    if |xs| == 0 then [] else MapIndexed(f, xs[..|xs| - 1]) + [f(xs[|xs| - 1], |xs| - 1)]
  }

  /** Mapping one more element appends its image. */
  lemma {:induction false} MapIndexedStep<A, B>(f: (A, nat) -> B, xs: seq<A>, k: nat)
    requires k < |xs|
    ensures MapIndexed(f, xs[..k + 1]) == MapIndexed(f, xs[..k]) + [f(xs[k], k)]
  {
    assert xs[..k + 1][..k] == xs[..k];
  }

  /** The prefix up to the length is the whole sequence. */
  lemma TakeAll<T>(xs: seq<T>)
    ensures xs[..|xs|] == xs
  {
  }

  /** The element at `k` is the image of the element at `k`, with its position. */
  lemma {:induction false} MapIndexedIndex<A, B>(f: (A, nat) -> B, xs: seq<A>)
    ensures forall k :: 0 <= k < |xs| ==> MapIndexed(f, xs)[k] == f(xs[k], k)
  {
    if |xs| > 0 {
      var n := |xs| - 1;
      MapIndexedIndex(f, xs[..n]);
      forall k | 0 <= k < n ensures MapIndexed(f, xs)[k] == f(xs[k], k) {
        assert xs[..n][k] == xs[k];
      }
    }
  }
}
