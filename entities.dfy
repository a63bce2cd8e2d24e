/** The records the movement service reads and writes: movements (its own ledger),
    product and client snapshots (owned by other services), and calendar values. */
module Entities {
  import opened Wrappers

  /** MovementType, with the two third-party kinds the service also records. */
  datatype MovementType =
    | DEPOSIT
    | WITHDRAWAL
    | PAYMENT
    | CONSUMPTION
    | THIRD_PARTY_PAYMENT_SENT
    | THIRD_PARTY_PAYMENT_RECEIVED

  datatype ProductSubtype =
    | SAVINGS
    | CURRENT_ACCOUNT
    | FIXED_TERM
    | PERSONAL_CREDIT
    | BUSINESS_CREDIT
    | CREDIT_CARD

  /** java.time.LocalDate, compared field by field. */
  datatype LocalDate = LocalDate(year: int, month: int, dayOfMonth: int)

  /** java.time.LocalDateTime: a calendar date and the time elapsed since its midnight. */
  datatype LocalDateTime = LocalDateTime(date: LocalDate, nanoOfDay: int)

  /** LocalDate.isBefore. */
  predicate IsBefore(a: LocalDate, b: LocalDate) {
    a.year < b.year
    || (a.year == b.year && a.month < b.month)
    || (a.year == b.year && a.month == b.month && a.dayOfMonth < b.dayOfMonth)
  }

  /** `t` is strictly later than `u`. */
  predicate IsLater(t: LocalDateTime, u: LocalDateTime) {
    IsBefore(u.date, t.date) || (u.date == t.date && u.nanoOfDay < t.nanoOfDay)
  }

  /** Midnight of the first day of the month `d` falls in. */
  function StartOfMonth(d: LocalDate): LocalDateTime {
    LocalDateTime(LocalDate(d.year, d.month, 1), 0)
  }

  /** A ledger entry. Every field is nullable, as in the persisted document. */
  datatype Movement = Movement(
    id: Option<string>,
    clientId: Option<string>,
    productId: Option<string>,
    movementType: Option<MovementType>,
    amount: Option<int>,
    date: Option<LocalDateTime>)

  /** The product service's record as fetched into this service; it is pushed back whole. */
  datatype Product = Product(
    productType: Option<string>,
    subtype: Option<ProductSubtype>,
    balance: Option<int>,
    clientId: Option<string>,
    maintenanceFee: Option<int>,
    monthlyMovementLimit: Option<int>,
    allowedMovementDay: Option<int>,
    creditLimit: Option<int>,
    freeTransactionLimit: Option<int>,
    transactionFee: Option<int>)

  /** The client service's record; only its type is consulted. */
  datatype Client = Client(id: Option<string>, clientType: Option<string>)

  datatype ThirdPartyPaymentRequest = ThirdPartyPaymentRequest(
    fromProductId: Option<string>,
    toProductId: Option<string>,
    amount: Option<int>)
}
