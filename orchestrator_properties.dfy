/** What the three writing operations promise: which inputs they refuse, that a refusal
    writes nothing, what an admitted call writes, and how the ledger and the balances
    relate afterwards, including the windows a failed PUT leaves open. */
module OrchestratorProperties {
  import opened Wrappers
  import opened Entities
  import opened Errors
  import opened MovementRules
  import opened Ledger
  import opened Orchestrator
  import JavaText

  // ---------------------------------------------------------------- save

  /** An admitted save pushed its product (only the balance changed, by the delta of the
      stored movement's type and fee-adjusted amount), left every other product alone, and
      stored the fee-adjusted movement; a movement without id is appended as one new entry. */
  lemma SaveAdmission(s: State, clients: map<string, Client>, m: Movement, env: Env)
    requires SaveSpec(s, clients, m, env).result.Ok?
    ensures m.clientId.Some? && m.clientId.value in clients
    ensures m.productId.Some? && m.productId.value in s.products
    ensures env.firstPushOk
    ensures var o := SaveSpec(s, clients, m, env);
      var pid := m.productId.value;
      var stored := o.result.value;
      var p := s.products[pid];
      && o.state.products.Keys == s.products.Keys
      && (forall k :: k in s.products && k != pid ==> o.state.products[k] == s.products[k])
      && o.state.products[pid] == p.(balance := o.state.products[pid].balance)
      && stored.amount == AdjustedAmount(m, p, CountSince(s.ledger, pid, StartOfMonth(env.now.date)))
      && stored.movementType == m.movementType && stored.productId == m.productId
      && Bal(o.state.products, pid) == Bal(s.products, pid) + BalanceDelta(stored)
      && (m.id.None? ==> stored.id == Some(env.firstNewId) && o.state.ledger == s.ledger + [stored])
  {
    var pid := m.productId.value;
    var count := CountSince(s.ledger, pid, StartOfMonth(env.now.date));
    AdmittedBalance(m, s.products[pid], clients[m.clientId.value], count, env.now.date.dayOfMonth);
  }

  /** Each admitted new movement dated inside the current month raises the product's count
      of movements this month, the count the fee rule reads, by exactly one. */
  lemma SaveCountsTowardsFreeLimit(s: State, clients: map<string, Client>, m: Movement, env: Env)
    requires SaveSpec(s, clients, m, env).result.Ok? && m.id.None?
    ensures m.productId.Some?
    ensures var start := StartOfMonth(env.now.date);
      CountSince(SaveSpec(s, clients, m, env).state.ledger, m.productId.value, start)
        == CountSince(s.ledger, m.productId.value, start) + (if CountedSince(m, m.productId.value, start) then 1 else 0)
  {
    var o := SaveSpec(s, clients, m, env);
    var stored := o.result.value;
    var start := StartOfMonth(env.now.date);
    SaveAdmission(s, clients, m, env);
    CountSinceAppend(s.ledger, [stored], m.productId.value, start);
    assert CountedSince(stored, m.productId.value, start) == CountedSince(m, m.productId.value, start);
  }

  /** A ledger that gained one movement agrees with balances that moved by that movement's
      delta on its own product only, as long as its type is not a third-party leg. */
  lemma OneEntryAgrees(before: map<string, Product>, after: map<string, Product>,
                       l0: seq<Movement>, l1: seq<Movement>, stored: Movement, k: string)
    requires stored.productId.Some?
    requires stored.movementType != Some(THIRD_PARTY_PAYMENT_SENT) && stored.movementType != Some(THIRD_PARTY_PAYMENT_RECEIVED)
    requires l1 == l0 + [stored]
    requires Bal(after, stored.productId.value) == Bal(before, stored.productId.value) + BalanceDelta(stored)
    requires k != stored.productId.value ==> Bal(after, k) == Bal(before, k)
    ensures Bal(after, k) == Bal(before, k) + LedgerEffect(l1[|l0|..], k)
  {
    assert l1[|l0|..] == [stored];
    assert [stored][1..] == [];
    assert LedgerEffect([stored], k) == (if stored.productId == Some(k) then SignedAmount(stored) else 0) + LedgerEffect([], k);
    assert SignedAmount(stored) == BalanceDelta(stored);
  }

  /** After an admitted new deposit, withdrawal, payment or consumption, every product's
      balance moved by exactly what the new ledger entry says. */
  lemma SaveLedgerAgrees(s: State, clients: map<string, Client>, m: Movement, env: Env, k: string)
    requires SaveSpec(s, clients, m, env).result.Ok? && m.id.None?
    requires m.movementType != Some(THIRD_PARTY_PAYMENT_SENT) && m.movementType != Some(THIRD_PARTY_PAYMENT_RECEIVED)
    ensures var o := SaveSpec(s, clients, m, env);
      Bal(o.state.products, k) == Bal(s.products, k) + LedgerEffect(o.state.ledger[|s.ledger|..], k)
  {
    var o := SaveSpec(s, clients, m, env);
    SaveAdmission(s, clients, m, env);
    var stored := o.result.value;
    var pid := m.productId.value;
    assert k != pid ==> Bal(o.state.products, k) == Bal(s.products, k);
    OneEntryAgrees(s.products, o.state.products, s.ledger, o.state.ledger, stored, k);
  }

  /** A concrete case: a credit card whose client has no eligible type is refused by the
      rules, and `save` reports that refusal only inside an unexpected error. */
  lemma SaveWrapsRuleRejection(s: State, clients: map<string, Client>, m: Movement, env: Env)
    requires m.clientId.Some? && m.clientId.value in clients
    requires m.productId.Some? && m.productId.value in s.products
    requires s.products[m.productId.value].subtype == Some(CREDIT_CARD)
    requires !EligibleForCreditCard(clients[m.clientId.value].clientType)
    ensures SaveSpec(s, clients, m, env) == Outcome(s, Err(Unexpected(IneligibleClientType)))
    ensures IntendedSaveSpec(s, clients, m, env) == Outcome(s, Err(IneligibleClientType))
  {
  }

  /** With the handlers as intended, the rule rejections come back as raised and every
      other failure is wrapped as unexpected; the state, and every success, are those of
      `save` as written. */
  lemma IntendedSaveSurfacesRejections(s: State, clients: map<string, Client>, m: Movement, env: Env)
    ensures var o := IntendedSaveSpec(s, clients, m, env);
      var steps := SaveSteps(s, clients, m, env);
      && o.state == SaveSpec(s, clients, m, env).state
      && (steps.result.Ok? ==> o.result == SaveSpec(s, clients, m, env).result)
      && (steps.result.Err? && IsStatusRejection(steps.result.error) ==> o.result == steps.result)
      && (steps.result.Err? && !IsStatusRejection(steps.result.error) ==>
            o.result == Err(Unexpected(steps.result.error)))
      && (o.result.Err? && IsStatusRejection(o.result.error) ==> steps.result == o.result)
  {
  }

  // ---------------------------------------------------------------- transfer

  /** A null or blank product id, then a null or non-positive amount, is refused whatever
      the products are (no GET is made) and nothing is written. */
  lemma TransferArgumentChecks(s: State, fromId: Option<string>, toId: Option<string>, amount: Option<int>, env: Env)
    ensures !ValidProductId(fromId) || !ValidProductId(toId)
      ==> TransferSpec(s, fromId, toId, amount, env) == Outcome(s, Err(InvalidProductId))
    ensures ValidProductId(fromId) && ValidProductId(toId) && (amount.None? || amount.value <= 0)
      ==> TransferSpec(s, fromId, toId, amount, env) == Outcome(s, Err(InvalidAmount))
  {
  }

  /** With valid arguments and both products found, the transfer is refused for insufficient
      funds exactly when the source balance is null or below the amount, with no PUT and no
      ledger write. */
  lemma TransferFundsCheck(s: State, fromId: Option<string>, toId: Option<string>, amount: Option<int>, env: Env)
    requires ValidProductId(fromId) && ValidProductId(toId) && amount.Some? && amount.value > 0
    requires fromId.value in s.products && toId.value in s.products
    ensures var from := s.products[fromId.value];
      (TransferSpec(s, fromId, toId, amount, env).result == Err(InsufficientFunds))
        <==> (from.balance.None? || from.balance.value < amount.value)
    ensures TransferSpec(s, fromId, toId, amount, env).result == Err(InsufficientFunds)
      ==> TransferSpec(s, fromId, toId, amount, env).state == s
  {
  }

  /** A successful transfer between two products moves `amount` from the source to the
      destination (null destination balance read as 0), keeps the sum of the two balances,
      touches no other product and appends exactly the withdrawal and the deposit. */
  lemma TransferSucceeds(s: State, fromId: Option<string>, toId: Option<string>, amount: Option<int>, env: Env)
    requires TransferSpec(s, fromId, toId, amount, env).result.Ok? && fromId != toId
    ensures fromId.Some? && toId.Some? && amount.Some? && amount.value > 0
    ensures fromId.value in s.products && toId.value in s.products
    ensures var o := TransferSpec(s, fromId, toId, amount, env);
      var f := fromId.value;
      var t := toId.value;
      var a := amount.value;
      && o.state.products.Keys == s.products.Keys
      && (forall k :: k in s.products && k != f && k != t ==> o.state.products[k] == s.products[k])
      && s.products[f].balance.Some? && s.products[f].balance.value >= a
      && o.state.products[f] == s.products[f].(balance := Some(s.products[f].balance.value - a))
      && o.state.products[t] == s.products[t].(balance := Some(s.products[t].balance.GetOr(0) + a))
      && Bal(o.state.products, f) == Bal(s.products, f) - a
      && Bal(o.state.products, t) == Bal(s.products, t) + a
      && Bal(o.state.products, f) + Bal(o.state.products, t) == Bal(s.products, f) + Bal(s.products, t)
      && |o.state.ledger| == |s.ledger| + 2 && o.state.ledger[..|s.ledger|] == s.ledger
      && o.state.ledger[|s.ledger|].movementType == Some(WITHDRAWAL)
      && o.state.ledger[|s.ledger|].productId == Some(f)
      && o.state.ledger[|s.ledger|].amount == Some(a)
      && o.state.ledger[|s.ledger| + 1].movementType == Some(DEPOSIT)
      && o.state.ledger[|s.ledger| + 1].productId == Some(t)
      && o.state.ledger[|s.ledger| + 1].amount == Some(a)
  {
  }

  /** When a PUT fails the ledger is left as it was, while the PUT that went through stays
      applied: the source is debited exactly when its PUT passed, the destination credited
      exactly when its PUT passed. */
  lemma TransferPushFailure(s: State, fromId: Option<string>, toId: Option<string>, amount: Option<int>, env: Env)
    requires TransferSpec(s, fromId, toId, amount, env).result == Err(Failed(ProductPushFailed))
    requires fromId != toId
    ensures !(env.firstPushOk && env.secondPushOk)
    ensures fromId.Some? && toId.Some? && amount.Some?
    ensures var o := TransferSpec(s, fromId, toId, amount, env);
      && o.state.ledger == s.ledger
      && fromId.value in s.products && toId.value in s.products
      && Bal(o.state.products, fromId.value) == Bal(s.products, fromId.value) - (if env.firstPushOk then amount.value else 0)
      && Bal(o.state.products, toId.value) == Bal(s.products, toId.value) + (if env.secondPushOk then amount.value else 0)
  {
  }

  /** After a successful transfer between two products, every product's balance moved by
      exactly what the two new ledger entries say. */
  lemma TransferLedgerAgrees(s: State, fromId: Option<string>, toId: Option<string>, amount: Option<int>, env: Env, k: string)
    requires TransferSpec(s, fromId, toId, amount, env).result.Ok? && fromId != toId
    ensures var o := TransferSpec(s, fromId, toId, amount, env);
      Bal(o.state.products, k) == Bal(s.products, k) + LedgerEffect(o.state.ledger[|s.ledger|..], k)
  {
    var o := TransferSpec(s, fromId, toId, amount, env);
    var from, to := s.products[fromId.value], s.products[toId.value];
    assert o.state.ledger[|s.ledger|..] == TransferRecords(from, to, fromId.value, toId.value, amount.value, env);
    LedgerEffectPair(o.state.ledger[|s.ledger|], o.state.ledger[|s.ledger| + 1], k);
  }

  /** A transfer from a product to itself is not refused and both copies are pushed; the
      copy the product service applies last wins. With the debited copy applied first, as
      here, the balance grows by `amount` although the two new ledger entries cancel out. */
  lemma TransferToItself(s: State, id: string, amount: Option<int>, env: Env)
    requires TransferSpec(s, Some(id), Some(id), amount, env).result.Ok?
    ensures amount.Some? && id in s.products
    ensures var o := TransferSpec(s, Some(id), Some(id), amount, env);
      && Bal(o.state.products, id) == Bal(s.products, id) + amount.value
      && LedgerEffect(o.state.ledger[|s.ledger|..], id) == 0
  {
    var o := TransferSpec(s, Some(id), Some(id), amount, env);
    var p := s.products[id];
    assert o.state.ledger[|s.ledger|..] == TransferRecords(p, p, id, id, amount.value, env);
    LedgerEffectPair(o.state.ledger[|s.ledger|], o.state.ledger[|s.ledger| + 1], id);
  }

  // ---------------------------------------------------------------- payThirdParty

  /** The guards in their order, once both products are found: the same client is refused
      first; then a destination whose type is not "activo" in any case; then a source
      balance below the amount. */
  lemma ThirdPartyGuardOrder(s: State, request: ThirdPartyPaymentRequest, env: Env)
    requires Fetch(s.products, request.fromProductId).Some? && Fetch(s.products, request.toProductId).Some?
    requires s.products[request.fromProductId.value].clientId.Some?
    ensures var from := s.products[request.fromProductId.value];
      var to := s.products[request.toProductId.value];
      var r := PayThirdPartySpec(s, request, env).result;
      && (r == Err(SameClient) <==> from.clientId == to.clientId)
      && (from.clientId != to.clientId ==> (r == Err(DestinationNotCredit) <==> !IsActivo(to.productType)))
      && (from.clientId != to.clientId && IsActivo(to.productType) && from.balance.Some? && request.amount.Some?
          ==> (r == Err(InsufficientFunds) <==> from.balance.value < request.amount.value))
  {
  }

  /** The destination types the product record's comment lists ("ACTIVE", "PASSIVE") never
      pass the "activo" check, so a third-party payment to such a product is always refused. */
  lemma ThirdPartyRefusesDocumentedTypes(s: State, request: ThirdPartyPaymentRequest, env: Env)
    requires Fetch(s.products, request.toProductId).Some?
    requires s.products[request.toProductId.value].productType in {Some("ACTIVE"), Some("PASSIVE")}
    ensures PayThirdPartySpec(s, request, env).result.Err?
    ensures PayThirdPartySpec(s, request, env).state == s
  {
    JavaText.ActiveIsNotActivo();
    assert !JavaText.EqualsIgnoreCase("PASSIVE", "activo");
  }

  /** A successful third-party payment is between two different products: the source loses
      and the destination gains the amount, and the ledger gains the sent leg at minus the
      amount on the source and the received leg at the amount on the destination, which
      sum to zero. */
  lemma ThirdPartySucceeds(s: State, request: ThirdPartyPaymentRequest, env: Env)
    requires PayThirdPartySpec(s, request, env).result.Ok?
    ensures var f := request.fromProductId;
      var t := request.toProductId;
      f.Some? && t.Some? && f != t && f.value in s.products && t.value in s.products && request.amount.Some?
    ensures var o := PayThirdPartySpec(s, request, env);
      var f := request.fromProductId.value;
      var t := request.toProductId.value;
      var a := request.amount.value;
      var n := |s.ledger|;
      && o.state.products.Keys == s.products.Keys
      && (forall k :: k in s.products && k != f && k != t ==> o.state.products[k] == s.products[k])
      && s.products[f].balance.Some? && s.products[t].balance.Some?
      && o.state.products[f] == s.products[f].(balance := Some(s.products[f].balance.value - a))
      && o.state.products[t] == s.products[t].(balance := Some(s.products[t].balance.value + a))
      && Bal(o.state.products, f) == Bal(s.products, f) - a
      && Bal(o.state.products, t) == Bal(s.products, t) + a
      && |o.state.ledger| == n + 2 && o.state.ledger[..n] == s.ledger
      && o.state.ledger[n].movementType == Some(THIRD_PARTY_PAYMENT_SENT)
      && o.state.ledger[n].productId == Some(f) && o.state.ledger[n].amount == Some(-a)
      && o.state.ledger[n + 1].movementType == Some(THIRD_PARTY_PAYMENT_RECEIVED)
      && o.state.ledger[n + 1].productId == Some(t) && o.state.ledger[n + 1].amount == Some(a)
      && o.state.ledger[n].amount.value + o.state.ledger[n + 1].amount.value == 0
  {
  }

  /** The ledger pair is saved before the PUTs: when a PUT fails both entries are already
      in the ledger, while only the PUTs that went through changed a balance. */
  lemma ThirdPartyLedgerBeforePush(s: State, request: ThirdPartyPaymentRequest, env: Env)
    requires PayThirdPartySpec(s, request, env).result == Err(Failed(ProductPushFailed))
    ensures !(env.firstPushOk && env.secondPushOk)
    ensures request.fromProductId.Some? && request.toProductId.Some? && request.amount.Some?
    ensures var o := PayThirdPartySpec(s, request, env);
      var f := request.fromProductId.value;
      var t := request.toProductId.value;
      var a := request.amount.value;
      && f != t
      && |o.state.ledger| == |s.ledger| + 2 && o.state.ledger[..|s.ledger|] == s.ledger
      && LedgerEffect(o.state.ledger[|s.ledger|..], f) == -a
      && LedgerEffect(o.state.ledger[|s.ledger|..], t) == a
      && Bal(o.state.products, f) == Bal(s.products, f) - (if env.firstPushOk then a else 0)
      && Bal(o.state.products, t) == Bal(s.products, t) + (if env.secondPushOk then a else 0)
  {
    var o := PayThirdPartySpec(s, request, env);
    var f, t := request.fromProductId.value, request.toProductId.value;
    assert o.state.ledger[|s.ledger|..]
        == ThirdPartyRecords(s.products[f], s.products[t], f, t, request.amount.value, env);
    LedgerEffectPair(o.state.ledger[|s.ledger|], o.state.ledger[|s.ledger| + 1], f);
    LedgerEffectPair(o.state.ledger[|s.ledger|], o.state.ledger[|s.ledger| + 1], t);
  }

  /** After a successful third-party payment, every product's balance moved by exactly what
      the two new ledger entries say. */
  lemma ThirdPartyLedgerAgrees(s: State, request: ThirdPartyPaymentRequest, env: Env, k: string)
    requires PayThirdPartySpec(s, request, env).result.Ok?
    ensures var o := PayThirdPartySpec(s, request, env);
      Bal(o.state.products, k) == Bal(s.products, k) + LedgerEffect(o.state.ledger[|s.ledger|..], k)
  {
    var o := PayThirdPartySpec(s, request, env);
    var f, t := request.fromProductId.value, request.toProductId.value;
    assert o.state.ledger[|s.ledger|..]
        == ThirdPartyRecords(s.products[f], s.products[t], f, t, request.amount.value, env);
    LedgerEffectPair(o.state.ledger[|s.ledger|], o.state.ledger[|s.ledger| + 1], k);
  }

  /** No guard looks at the sign of the amount: a third-party payment of a negative amount
      that passes the other guards (a source balance of at least that amount included)
      goes through and moves money from the destination to the source. */
  lemma ThirdPartyAcceptsNegativeAmount(s: State, request: ThirdPartyPaymentRequest, env: Env)
    requires Fetch(s.products, request.fromProductId).Some? && Fetch(s.products, request.toProductId).Some?
    requires var from := s.products[request.fromProductId.value];
      var to := s.products[request.toProductId.value];
      && from.clientId.Some? && from.clientId != to.clientId && IsActivo(to.productType)
      && from.balance.Some? && to.balance.Some?
      && request.amount.Some? && request.amount.value < 0 && from.balance.value >= request.amount.value
    requires env.firstPushOk && env.secondPushOk
    ensures PayThirdPartySpec(s, request, env).result.Ok?
    ensures Bal(PayThirdPartySpec(s, request, env).state.products, request.fromProductId.value)
          > Bal(s.products, request.fromProductId.value)
  {
  }
}
