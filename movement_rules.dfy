/** The business rules a single movement passes before it is admitted: the credit-card
    client-type guard of `save`, the checks of `validarMovimiento` and the balance
    computation of `actualizarBalanceYGuardar`. Pure: the caller supplies the fetched
    product and client, this month's movement count and today's day of the month. */
module MovementRules {
  import opened Wrappers
  import opened Entities
  import opened Errors
  import JavaText

  /** Only "personal" or "empresarial" clients (any case) may hold a credit card. */
  predicate EligibleForCreditCard(clientType: Option<string>) {
    clientType.Some?
    && (JavaText.EqualsIgnoreCase(clientType.value, "personal")
        || JavaText.EqualsIgnoreCase(clientType.value, "empresarial"))
  }

  /** A fixed-term product allows withdrawals only on its configured day, when one is set. */
  predicate WithdrawalDayAllowed(p: Product, m: Movement, today: int) {
    !(p.subtype == Some(FIXED_TERM) && m.movementType == Some(WITHDRAWAL))
    || p.allowedMovementDay.None?
    || p.allowedMovementDay.value == today
  }

  /** The transaction fee is charged once the free transactions of the month are used up. */
  predicate FeeApplies(p: Product, count: nat) {
    p.freeTransactionLimit.Some? && p.transactionFee.Some? && count >= p.freeTransactionLimit.value
  }

  predicate IsCreditSubtype(s: Option<ProductSubtype>) {
    s == Some(PERSONAL_CREDIT) || s == Some(BUSINESS_CREDIT) || s == Some(CREDIT_CARD)
  }

  /** The credit-limit check is made on withdrawals from credit products with a limit. */
  predicate LimitChecked(p: Product, m: Movement) {
    IsCreditSubtype(p.subtype) && m.movementType == Some(WITHDRAWAL) && p.creditLimit.Some?
  }

  /** The movement types that change the balance. */
  predicate MovesBalance(m: Movement) {
    m.movementType == Some(DEPOSIT) || m.movementType == Some(WITHDRAWAL)
  }

  /** The amount after the fee rule; None when the amount is null (adding the fee to a null
      amount throws, so a null amount stays None either way). */
  function AdjustedAmount(m: Movement, p: Product, count: nat): Option<int> {
    if FeeApplies(p, count) then
      (if m.amount.Some? then Some(m.amount.value + p.transactionFee.value) else None)
    else m.amount
  }

  /** What an admitted movement leaves: the movement to save (fee included) and the product
      snapshot to push back. */
  datatype Admission = Admission(movement: Movement, product: Product)

  /** The change an admitted movement makes to its product's balance. */
  function BalanceDelta(m: Movement): int {
    if m.amount.None? then 0
    else if m.movementType == Some(DEPOSIT) then m.amount.value
    else if m.movementType == Some(WITHDRAWAL) then -m.amount.value
    else 0
  }

  /** The whole decision, first failing check wins: client type, withdrawal day, fee (which
      dereferences the amount), credit limit on the adjusted amount, then the new balance
      (a null balance counts as 0; only deposits and withdrawals set it). */
  function Admit(m: Movement, p: Product, c: Client, count: nat, today: int): (r: Result<Admission, Error>)
    ensures r.Ok? ==> r.value.movement == m.(amount := r.value.movement.amount)
    ensures r.Ok? ==> r.value.product == p.(balance := r.value.product.balance)
    ensures r.Err? ==>
      || r.error == IneligibleClientType || r.error == WithdrawalDayNotAllowed
      || r.error == CreditLimitExceeded || r.error == Failed(NullReference)
  {
    if p.subtype == Some(CREDIT_CARD) && !EligibleForCreditCard(c.clientType) then
      Err(IneligibleClientType)
    else if !WithdrawalDayAllowed(p, m, today) then
      Err(WithdrawalDayNotAllowed)
    else if FeeApplies(p, count) && m.amount.None? then
      Err(Failed(NullReference))
    else
      var adjusted := m.(amount := AdjustedAmount(m, p, count));
      if LimitChecked(p, adjusted) && adjusted.amount.None? then
        Err(Failed(NullReference))
      else if LimitChecked(p, adjusted) && adjusted.amount.value > p.creditLimit.value then
        Err(CreditLimitExceeded)
      else if MovesBalance(adjusted) && adjusted.amount.None? then
        Err(Failed(NullReference))
      else
        var current := p.balance.GetOr(0);
        var balance := if MovesBalance(adjusted) then Some(current + BalanceDelta(adjusted)) else p.balance;
        Ok(Admission(adjusted, p.(balance := balance)))
  }

  /** A credit card whose client type is neither "personal" nor "empresarial" is refused
      before any other rule, and that refusal arises from nothing else. */
  lemma CreditCardClientType(m: Movement, p: Product, c: Client, count: nat, today: int)
    ensures Admit(m, p, c, count, today) == Err(IneligibleClientType)
        <==> p.subtype == Some(CREDIT_CARD) && !EligibleForCreditCard(c.clientType)
  {
  }

  /** A withdrawal from a fixed-term product is refused exactly when a day is configured and
      today is another day. */
  lemma FixedTermWithdrawalDay(m: Movement, p: Product, c: Client, count: nat, today: int)
    requires p.subtype == Some(FIXED_TERM) && m.movementType == Some(WITHDRAWAL)
    ensures Admit(m, p, c, count, today) == Err(WithdrawalDayNotAllowed)
        <==> p.allowedMovementDay.Some? && p.allowedMovementDay.value != today
  {
  }

  /** An admitted movement differs from the proposed one only in its amount, which carries
      the fee exactly once when the fee rule applies and is untouched otherwise. */
  lemma FeeAppliedOnce(m: Movement, p: Product, c: Client, count: nat, today: int)
    requires Admit(m, p, c, count, today).Ok?
    ensures FeeApplies(p, count) ==>
      (m.amount.Some? && Admit(m, p, c, count, today).value.movement == m.(amount := Some(m.amount.value + p.transactionFee.value)))
    ensures !FeeApplies(p, count) ==> Admit(m, p, c, count, today).value.movement == m
  {
  }

  /** A withdrawal from a credit product with a limit is refused for exceeding it exactly when
      the fee-adjusted amount is above the limit; an admitted one is within it. */
  lemma CreditLimitRule(m: Movement, p: Product, c: Client, count: nat, today: int)
    requires IsCreditSubtype(p.subtype) && m.movementType == Some(WITHDRAWAL) && p.creditLimit.Some?
    requires p.subtype == Some(CREDIT_CARD) ==> EligibleForCreditCard(c.clientType)
    ensures Admit(m, p, c, count, today) == Err(CreditLimitExceeded)
        <==> AdjustedAmount(m, p, count).Some? && AdjustedAmount(m, p, count).value > p.creditLimit.value
    ensures Admit(m, p, c, count, today).Ok? ==>
      (Admit(m, p, c, count, today).value.movement.amount.Some?
       && Admit(m, p, c, count, today).value.movement.amount.value <= p.creditLimit.value)
  {
  }

  /** Admission changes nothing of the product but its balance: a deposit adds the adjusted
      amount and a withdrawal subtracts it from the balance (null read as 0); other types
      leave the balance as it was, null included. */
  lemma AdmittedBalance(m: Movement, p: Product, c: Client, count: nat, today: int)
    requires Admit(m, p, c, count, today).Ok?
    ensures var a := Admit(m, p, c, count, today).value;
      && a.product == p.(balance := a.product.balance)
      && a.movement.movementType == m.movementType
      && (m.movementType == Some(DEPOSIT) ==>
           (a.movement.amount.Some? && a.product.balance == Some(p.balance.GetOr(0) + a.movement.amount.value)))
      && (m.movementType == Some(WITHDRAWAL) ==>
           (a.movement.amount.Some? && a.product.balance == Some(p.balance.GetOr(0) - a.movement.amount.value)))
      && (!MovesBalance(m) ==> a.product.balance == p.balance)
  {
  }
}
