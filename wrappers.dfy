/** Option and Result values standing for JavaScript's `null` and for a
    rejected promise or a thrown exception. */
module Wrappers {

  datatype Option<+T> = None | Some(value: T) {
    function GetOr(default: T): T {
      match this
      case Some(v) => v
      case None => default
    }
  }

  /** The outcome of an awaited call: its value, or the error it threw.
      `status` is the HTTP status carried by the error, when there is one. */
  datatype Result<+T> = Ok(value: T) | Err(status: Option<int>)

  /** `err?.response?.status === 402`: the payment-required answer that the
      screens swallow without a message. */
  predicate IsPaymentRequired<T>(r: Result<T>) {
    r.Err? && r.status == Some(402)
  }
}
