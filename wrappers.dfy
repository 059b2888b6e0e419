/** Optional values, the exceptions the program raises, and a result type that
    carries either a value or one of those exceptions. */
module Wrappers {

  datatype Option<T> = None | Some(value: T)

  /** The Python exceptions the modelled code raises (or lets escape), plus the
      fatal exit taken when the solver reports failure. */
  datatype Error =
    | ValueError(message: string)
    | TypeError(message: string)
    | AttributeError(message: string)
    | KeyError(key: string)
    | IndexError
    | ZeroDivisionError
    | RuntimeError(message: string)
    | SolverFailed(message: string)

  datatype Result<T> = Ok(value: T) | Err(error: Error) {

    predicate IsFailure() {
      Err?
    }

    function PropagateFailure<U>(): Result<U>
      requires Err?
    {
      Err(error)
    }

    function Extract(): T
      requires Ok?
    {
      value
    }
  }

  /** Apply `step` to each element in turn, starting from `init` and stopping
      at the first error: a Python loop whose body may raise. */
  function FoldResult<A, B>(xs: seq<A>, init: B, step: (B, A) -> Result<B>): Result<B>
  {
    if |xs| == 0 then Ok(init)
    else
      match FoldResult(xs[..|xs| - 1], init, step)
      case Err(e) => Err(e)
      case Ok(acc) => step(acc, xs[|xs| - 1])
  }

  /** One more iteration of the loop. */
  lemma FoldResultStep<A, B>(xs: seq<A>, i: int, init: B, step: (B, A) -> Result<B>)
    requires 0 <= i < |xs|
    ensures FoldResult(xs[..i + 1], init, step) ==
              match FoldResult(xs[..i], init, step)
              case Err(e) => Err(e)
              case Ok(acc) => step(acc, xs[i])
  {
    assert xs[..i + 1][..i] == xs[..i];
  }

  /** An error raised in some iteration is the outcome of the whole loop. */
  lemma {:induction false} FoldResultStopsAtError<A, B>(xs: seq<A>, i: int, init: B, step: (B, A) -> Result<B>)
    requires 0 <= i <= |xs| && FoldResult(xs[..i], init, step).Err?
    ensures FoldResult(xs, init, step) == FoldResult(xs[..i], init, step)
    decreases |xs|
  {
    if i == |xs| {
      assert xs[..i] == xs;
    } else {
      var init' := xs[..|xs| - 1];
      assert init'[..i] == xs[..i];
      FoldResultStopsAtError(init', i, init, step);
    }
  }
}
