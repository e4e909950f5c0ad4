/** Optional values and results, the model's stand-in for Go's nil and for runtime panics. */
module Wrappers {

  datatype Option<+T> = None | Some(value: T)

  datatype Result<+R, +E> = Success(value: R) | Failure(error: E)

  /** The "first optional argument or a default" idiom of Go's variadic parameters. */
  function FirstOr<T>(xs: seq<T>, default: T): (r: T)
    ensures |xs| > 0 ==> r == xs[0]
    ensures |xs| == 0 ==> r == default
  {
    if |xs| > 0 then xs[0] else default
  }
}
