/** Failure-carrying values shared by every module of the gateway model. */
module Wrappers {

  datatype Option<+T> = None | Some(value: T) {
    function GetOr(default: T): T {
      match this
      case Some(v) => v
      case None => default
    }
  }

  /** The Python exception a failing operation raises, with its message where the source sets one. */
  datatype Exc =
    | KeyError
    | ValueError
    | TypeError
    | IndexError
    | ZeroDivisionError
    | StructError
    | InterpolationSyntaxError
    | InterpolationMissingOptionError
    | InterpolationDepthError
    | AttributeError(msg: string)
    | RuntimeError(msg: string)

  datatype Result<+T> = Ok(value: T) | Err(exc: Exc)

  /** The `f(x)` that are not None, in order: a loop that skips with `continue`. */
  function FilterMap<A, B>(xs: seq<A>, f: A -> Option<B>): (r: seq<B>)
    ensures |r| <= |xs|
    decreases |xs|
  {
    if |xs| == 0 then []
    else
      var init := FilterMap(xs[..|xs| - 1], f);
      match f(xs[|xs| - 1])
      case None => init
      case Some(y) => init + [y]
  }

  /** What `FilterMap` keeps is exactly the `f(x)` that are not None. */
  lemma {:induction false} FilterMapMembers<A, B>(xs: seq<A>, f: A -> Option<B>)
    ensures forall y :: y in FilterMap(xs, f) <==> exists i :: 0 <= i < |xs| && f(xs[i]) == Some(y)
    decreases |xs|
  {
    if |xs| > 0 {
      var init := xs[..|xs| - 1];
      FilterMapMembers(init, f);
      forall y ensures y in FilterMap(xs, f) <==> exists i :: 0 <= i < |xs| && f(xs[i]) == Some(y) {
        if y in FilterMap(init, f) {
          var i :| 0 <= i < |init| && f(init[i]) == Some(y);
          assert xs[i] == init[i];
        }
        if exists i :: 0 <= i < |xs| && f(xs[i]) == Some(y) {
          var i :| 0 <= i < |xs| && f(xs[i]) == Some(y);
          if i < |xs| - 1 {
            assert xs[i] == init[i];
          }
        }
      }
    }
  }

  /** When `f` keeps every element as it is, `FilterMap` is the identity. */
  lemma {:induction false} FilterMapKeepsAll<A>(xs: seq<A>, f: A -> Option<A>)
    requires forall i :: 0 <= i < |xs| ==> f(xs[i]) == Some(xs[i])
    ensures FilterMap(xs, f) == xs
    decreases |xs|
  {
    if |xs| > 0 {
      FilterMapKeepsAll(xs[..|xs| - 1], f);
      assert xs[..|xs| - 1] + [xs[|xs| - 1]] == xs;
    }
  }
}
