/** Optional values and the outcome of an operation that may throw. */
module Wrappers {

  /** `null` / `undefined` on one side, a present value on the other. */
  datatype Option<T> = None | Some(value: T) {
    function GetOr(default: T): T {
      match this
      case Some(v) => v
      case None => default
    }
  }

  /** The value an operation returns, or the message of the Error it throws. */
  datatype Result<T> = Ok(value: T) | Err(msg: string)

  /** A rational number num/den; den == 0 stands for JavaScript's Infinity or NaN. */
  datatype Ratio = Ratio(num: int, den: nat)
}
