/** Types shared by the point-of-sale page and the cashier page. */
module Common {

  /** Money is exact: amounts are real numbers of baht (the pages use
      JavaScript numbers; floating-point rounding is not modelled). */
  type Money = real

  /** Timestamps written by the database or by `new Date()`: opaque, but
      ordered, since shifts are selected by the latest `opened_at`. */
  type Timestamp = int

  /** Identity of the signed-in user (a cashier). */
  type UserId = string

  datatype Option<+T> = None | Some(value: T)
}
