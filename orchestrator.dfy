/** The three writing operations of MovementServiceImpl as state transitions over the
    product service's records and the movements collection. Each remote call becomes a
    step on this state: a GET copies a record out of the product map, a PUT replaces the
    record whole when the environment lets it through, and a ledger save appends. */
module Orchestrator {
  import opened Wrappers
  import opened Entities
  import opened Errors
  import opened MovementRules
  import opened Ledger
  import JavaText

  /** The product service's records by id, and the movements collection. */
  datatype State = State(products: map<string, Product>, ledger: seq<Movement>)

  /** What the outside world decides during one call: the clock, whether each product PUT
      (in the order they are issued) reaches the product service, and the ids the store
      generates for the first and second new movement. */
  datatype Env = Env(
    now: LocalDateTime,
    firstPushOk: bool,
    secondPushOk: bool,
    firstNewId: string,
    secondNewId: string)

  datatype Outcome<T> = Outcome(state: State, result: Result<T, Error>)

  /** The store hands out ids no document has, one per new document. */
  predicate FreshIds(l: seq<Movement>, env: Env) {
    env.firstNewId != env.secondNewId && !HasId(l, env.firstNewId) && !HasId(l, env.secondNewId)
  }

  /** GET /api/v1/product/{id}: a copy of the record, or nothing for a null or unknown id. */
  function Fetch(products: map<string, Product>, id: Option<string>): Option<Product> {
    if id.Some? && id.value in products then Some(products[id.value]) else None
  }

  /** PUT /api/v1/product/{id}: the record is replaced whole, if the request gets through. */
  function Push(products: map<string, Product>, id: string, p: Product, ok: bool): map<string, Product> {
    if ok then products[id := p] else products
  }

  /** A product's balance, null read as 0. */
  function Bal(products: map<string, Product>, id: string): int {
    if id in products then products[id].balance.GetOr(0) else 0
  }

  /** The pipeline `save` builds before its two error handlers: look up the client (cache,
      then client service) and the product, run the rules against this month's count, push
      the re-balanced product, then save the movement. Each failure is the one raised at
      its step. */
  function SaveSteps(s: State, clients: map<string, Client>, m: Movement, env: Env): (o: Outcome<Movement>)
    ensures o.result.Err? ==> o.state == s
  {
    if m.clientId.None? || m.clientId.value !in clients then
      Outcome(s, Err(Failed(ClientFetchFailed)))
    else if Fetch(s.products, m.productId).None? then
      Outcome(s, Err(Failed(ProductFetchFailed)))
    else
      var pid := m.productId.value;
      var count := CountSince(s.ledger, pid, StartOfMonth(env.now.date));
      match Admit(m, s.products[pid], clients[m.clientId.value], count, env.now.date.dayOfMonth)
      case Err(e) => Outcome(s, Err(e))
      case Ok(a) =>
        if !env.firstPushOk then Outcome(s, Err(Failed(ProductPushFailed)))
        else
          var saved := Persist(s.ledger, a.movement, env.firstNewId);
          Outcome(State(s.products[pid := a.product], saved.ledger), Ok(saved.stored))
  }

  /** `save` with its handlers as written: the first re-raises a status exception, and the
      catch-all chained after it catches that error too, so every failure of the steps,
      rule rejections included, leaves `save` wrapped as unexpected. */
  function SaveSpec(s: State, clients: map<string, Client>, m: Movement, env: Env): (o: Outcome<Movement>)
    ensures o.result.Err? ==> o.state == s && o.result.error.Unexpected?
  {
    var o := SaveSteps(s, clients, m, env);
    if o.result.Err? then Outcome(o.state, Err(Unexpected(o.result.error))) else o
  }

  /** The failures of the steps that are raised as status exceptions (the three rule
      rejections); every other failure is a plain exception. */
  predicate IsStatusRejection(e: Error) {
    e.IneligibleClientType? || e.WithdrawalDayNotAllowed? || e.CreditLimitExceeded?
  }

  /** `save` as its handlers are evidently meant to behave: a status exception passes
      through as it was raised, and only the other failures are wrapped as unexpected. */
  function IntendedSaveSpec(s: State, clients: map<string, Client>, m: Movement, env: Env): Outcome<Movement> {
    var o := SaveSteps(s, clients, m, env);
    if o.result.Err? && !IsStatusRejection(o.result.error) then Outcome(o.state, Err(Unexpected(o.result.error)))
    else o
  }

  /** A product id transfer accepts: not null and not blank. */
  predicate ValidProductId(id: Option<string>) {
    id.Some? && !JavaText.IsBlank(id.value)
  }

  /** The source snapshot after paying out `amount`. */
  function Debited(p: Product, amount: int): Product
    requires p.balance.Some?
  {
    p.(balance := Some(p.balance.value - amount))
  }

  /** The destination snapshot after receiving `amount`, a null balance read as 0. */
  function Credited(p: Product, amount: int): Product {
    p.(balance := Some(p.balance.GetOr(0) + amount))
  }

  /** A movement created by the service itself. */
  function Record(id: string, clientId: Option<string>, productId: string, t: MovementType, amount: int, now: LocalDateTime): Movement {
    Movement(Some(id), clientId, Some(productId), Some(t), Some(amount), Some(now))
  }

  /** The pair a transfer saves: a withdrawal on the source and a deposit on the destination. */
  function TransferRecords(from: Product, to: Product, f: string, t: string, amount: int, env: Env): seq<Movement> {
    [Record(env.firstNewId, from.clientId, f, WITHDRAWAL, amount, env.now),
     Record(env.secondNewId, to.clientId, t, DEPOSIT, amount, env.now)]
  }

  /** `transfer`: argument checks before any remote call, both GETs, the funds check, both
      PUTs (source first), and the ledger pair only when both PUTs went through. */
  function TransferSpec(s: State, fromId: Option<string>, toId: Option<string>, amount: Option<int>, env: Env): (o: Outcome<()>)
    ensures o.result.Err? && o.result != Err(Failed(ProductPushFailed)) ==> o.state == s
    ensures o.result.Ok? ==> |o.state.ledger| == |s.ledger| + 2 && o.state.ledger[..|s.ledger|] == s.ledger
    ensures o.result.Err? ==> o.state.ledger == s.ledger
  {
    if !ValidProductId(fromId) || !ValidProductId(toId) then
      Outcome(s, Err(InvalidProductId))
    else if amount.None? || amount.value <= 0 then
      Outcome(s, Err(InvalidAmount))
    else if Fetch(s.products, fromId).None? || Fetch(s.products, toId).None? then
      Outcome(s, Err(Failed(ProductFetchFailed)))
    else
      var f := fromId.value;
      var t := toId.value;
      var from := s.products[f];
      var to := s.products[t];
      if from.balance.None? || from.balance.value < amount.value then
        Outcome(s, Err(InsufficientFunds))
      else
        var pushed := Push(Push(s.products, f, Debited(from, amount.value), env.firstPushOk),
                           t, Credited(to, amount.value), env.secondPushOk);
        if env.firstPushOk && env.secondPushOk then
          Outcome(State(pushed, s.ledger + TransferRecords(from, to, f, t, amount.value, env)), Ok(()))
        else
          Outcome(State(pushed, s.ledger), Err(Failed(ProductPushFailed)))
  }

  /** The destination of a third-party payment must be of type "activo" (any case). */
  predicate IsActivo(productType: Option<string>) {
    productType.Some? && JavaText.EqualsIgnoreCase(productType.value, "activo")
  }

  /** The pair a third-party payment saves: the sent leg negative, the received leg positive. */
  function ThirdPartyRecords(from: Product, to: Product, f: string, t: string, amount: int, env: Env): seq<Movement> {
    [Record(env.firstNewId, from.clientId, f, THIRD_PARTY_PAYMENT_SENT, -amount, env.now),
     Record(env.secondNewId, to.clientId, t, THIRD_PARTY_PAYMENT_RECEIVED, amount, env.now)]
  }

  /** `payThirdParty`: both GETs, then the guards in source order (the null dereferences
      included), then the ledger pair, and only after it both PUTs. */
  function PayThirdPartySpec(s: State, request: ThirdPartyPaymentRequest, env: Env): (o: Outcome<()>)
    ensures o.result.Err? && o.result != Err(Failed(ProductPushFailed)) ==> o.state == s
    ensures (o.result.Ok? || o.result == Err(Failed(ProductPushFailed))) ==>
      |o.state.ledger| == |s.ledger| + 2 && o.state.ledger[..|s.ledger|] == s.ledger
  {
    var fromId := request.fromProductId;
    var toId := request.toProductId;
    var amount := request.amount;
    if Fetch(s.products, fromId).None? || Fetch(s.products, toId).None? then
      Outcome(s, Err(Failed(ProductFetchFailed)))
    else
      var f := fromId.value;
      var t := toId.value;
      var from := s.products[f];
      var to := s.products[t];
      if from.clientId.None? then Outcome(s, Err(Failed(NullReference)))
      else if from.clientId == to.clientId then Outcome(s, Err(SameClient))
      else if !IsActivo(to.productType) then Outcome(s, Err(DestinationNotCredit))
      else if from.balance.None? || amount.None? then Outcome(s, Err(Failed(NullReference)))
      else if from.balance.value < amount.value then Outcome(s, Err(InsufficientFunds))
      else if to.balance.None? then Outcome(s, Err(Failed(NullReference)))
      else
        var ledger := s.ledger + ThirdPartyRecords(from, to, f, t, amount.value, env);
        var pushed := Push(Push(s.products, f, Debited(from, amount.value), env.firstPushOk),
                           t, Credited(to, amount.value), env.secondPushOk);
        Outcome(State(pushed, ledger),
                if env.firstPushOk && env.secondPushOk then Ok(()) else Err(Failed(ProductPushFailed)))
  }

  /** The balance change a movement stands for, read off the ledger alone: deposits and
      withdrawals by their type, third-party legs by their signed amount. */
  function SignedAmount(m: Movement): int {
    if m.amount.None? then 0
    else match m.movementType
      case Some(DEPOSIT) => m.amount.value
      case Some(WITHDRAWAL) => -m.amount.value
      case Some(THIRD_PARTY_PAYMENT_SENT) => m.amount.value
      case Some(THIRD_PARTY_PAYMENT_RECEIVED) => m.amount.value
      case _ => 0
  }

  /** The sum of the signed amounts of the movements on product `id`. */
  function LedgerEffect(ms: seq<Movement>, id: string): int {
    if ms == [] then 0
    else (if ms[0].productId == Some(id) then SignedAmount(ms[0]) else 0) + LedgerEffect(ms[1..], id)
  }

  /** The effect of a pair of movements is the sum of their effects. */
  lemma LedgerEffectPair(a: Movement, b: Movement, id: string)
    ensures LedgerEffect([a, b], id)
         == (if a.productId == Some(id) then SignedAmount(a) else 0)
          + (if b.productId == Some(id) then SignedAmount(b) else 0)
  {
    assert [a, b][1..] == [b];
    assert [b][1..] == [];
    assert LedgerEffect([b], id) == (if b.productId == Some(id) then SignedAmount(b) else 0) + LedgerEffect([], id);
  }
}
