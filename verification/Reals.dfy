/** The real-number functions shared by the buckets and the retry policy. */
module Reals {
  function Min(x: real, y: real): real {
    if x <= y then x else y
  }

  function Max(x: real, y: real): real {
    if x >= y then x else y
  }
}
