/** Shared vocabulary of the budget domain: optional values, record
    identifiers, dates, and the integer arithmetic of the app's language,
    whose `/` and `%` on integers truncate toward zero. */
module Basics {

  datatype Option<+T> = None | Some(value: T)

  /** A record identifier. Every persisted record carries a UUID that is
      unique in the store; the model draws them from a counter. */
  type Id = nat

  /** A point in time. Only the order of dates matters to the core. */
  type Date = int

  /** Integer division that truncates toward zero, as the app's `/` on `Int`. */
  function TruncDiv(a: int, b: int): (q: int)
    requires b > 0
    ensures a >= 0 ==> q * b <= a < q * b + b
    ensures a < 0 ==> q * b - b < a <= q * b
  {
    if a >= 0 then a / b else -((-a) / b)
  }

  /** The remainder that goes with TruncDiv: it takes the sign of `a`. */
  function TruncRem(a: int, b: int): (r: int)
    requires b > 0
    ensures a == TruncDiv(a, b) * b + r
    ensures a >= 0 ==> 0 <= r < b
    ensures a < 0 ==> -b < r <= 0
  {
    a - TruncDiv(a, b) * b
  }

  /** The larger of two amounts (Swift's `max`). */
  function Max(x: real, y: real): (m: real)
    ensures m >= x && m >= y && (m == x || m == y)
  {
    if x < y then y else x
  }

  /** The smaller of two amounts (Swift's `min`). */
  function Min(x: real, y: real): (m: real)
    ensures m <= x && m <= y && (m == x || m == y)
  {
    if x < y then x else y
  }
}
