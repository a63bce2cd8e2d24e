/** MovementServiceImpl: the service object, holding the state its calls change. */
module Service {
  import opened Wrappers
  import opened Entities
  import opened Errors
  import opened MovementRules
  import opened Ledger
  import opened Orchestrator

  class MovementServiceImpl {
    /** The product service's records, reached by GET and PUT. */
    var products: map<string, Product>
    /** The movements collection, in store order. */
    var ledger: seq<Movement>

    ghost predicate Valid()
      reads this
    {
      WellKeyed(ledger)
    }

    function Current(): State
      reads this
    {
      State(products, ledger)
    }

    constructor (products0: map<string, Product>, ledger0: seq<Movement>)
      requires WellKeyed(ledger0)
      ensures Valid() && products == products0 && ledger == ledger0
    {
      products := products0;
      ledger := ledger0;
    }

    /** save: client, product, the rules, the PUT of the product, then the ledger save; every
        failure comes out wrapped by the catch-all. */
    method Save(movement: Movement, clients: map<string, Client>, env: Env) returns (r: Result<Movement, Error>)
      requires Valid() && FreshIds(ledger, env)
      modifies this
      ensures Valid()
      ensures Outcome(Current(), r) == SaveSpec(old(Current()), clients, movement, env)
    {
      if movement.clientId.None? || movement.clientId.value !in clients {
        return Err(Unexpected(Failed(ClientFetchFailed)));
      }
      var client := clients[movement.clientId.value];
      if movement.productId.None? || movement.productId.value !in products {
        return Err(Unexpected(Failed(ProductFetchFailed)));
      }
      var pid := movement.productId.value;
      var product := products[pid];
      var count := CountSince(ledger, pid, StartOfMonth(env.now.date));
      var decision := Admit(movement, product, client, count, env.now.date.dayOfMonth);
      if decision.Err? {
        return Err(Unexpected(decision.error));
      }
      if !env.firstPushOk {
        return Err(Unexpected(Failed(ProductPushFailed)));
      }
      products := products[pid := decision.value.product];
      var saved := Persist(ledger, decision.value.movement, env.firstNewId);
      PersistKeepsWellKeyed(ledger, decision.value.movement, env.firstNewId);
      ledger := saved.ledger;
      r := Ok(saved.stored);
    }

    /** transfer: argument checks, both GETs, the funds check, both PUTs, then saveAll. */
    method Transfer(fromId: Option<string>, toId: Option<string>, amount: Option<int>, env: Env) returns (r: Result<(), Error>)
      requires Valid() && FreshIds(ledger, env)
      modifies this
      ensures Valid()
      ensures Outcome(Current(), r) == TransferSpec(old(Current()), fromId, toId, amount, env)
    {
      if !ValidProductId(fromId) || !ValidProductId(toId) {
        return Err(InvalidProductId);
      }
      if amount.None? || amount.value <= 0 {
        return Err(InvalidAmount);
      }
      var f, t, amt := fromId.value, toId.value, amount.value;
      if f !in products || t !in products {
        return Err(Failed(ProductFetchFailed));
      }
      var from, to := products[f], products[t];
      if from.balance.None? || from.balance.value < amt {
        return Err(InsufficientFunds);
      }
      var withdrawal := Record(env.firstNewId, from.clientId, f, WITHDRAWAL, amt, env.now);
      var deposit := Record(env.secondNewId, to.clientId, t, DEPOSIT, amt, env.now);
      from := from.(balance := Some(from.balance.value - amt));
      to := to.(balance := Some(to.balance.GetOr(0) + amt));
      if env.firstPushOk {
        products := products[f := from];
      }
      if env.secondPushOk {
        products := products[t := to];
      }
      if !(env.firstPushOk && env.secondPushOk) {
        return Err(Failed(ProductPushFailed));
      }
      AppendPairKeepsWellKeyed(ledger, withdrawal, deposit);
      ledger := ledger + [withdrawal, deposit];
      r := Ok(());
    }

    /** update: replace the movement with this id, if there is one. */
    method Update(id: string, movement: Movement) returns (r: Option<Movement>)
      requires Valid()
      modifies this
      ensures Valid() && products == old(products)
      ensures !HasId(old(ledger), id) ==> r == None && ledger == old(ledger)
      ensures HasId(old(ledger), id) ==>
        r == Some(movement.(id := Some(id))) && ledger == ReplaceById(old(ledger), id, r.value)
    {
      var existing := FindById(ledger, id);
      if existing.None? {
        return None;
      }
      var stored := movement.(id := Some(id));
      ReplaceKeepsWellKeyed(ledger, id, stored);
      ledger := ReplaceById(ledger, id, stored);
      r := Some(stored);
    }

    /** getMovementsByProductAndDateRange: the product's movements dated within [from, to]. */
    method GetMovementsByProductAndDateRange(productId: string, from: LocalDate, to: LocalDate) returns (r: Scan)
      ensures r == RangeScan(ledger, productId, from, to)
    {
      r := RangeScan(ledger, productId, from, to);
    }

    /** payThirdParty: both GETs, the guards, saveAll of the pair, then both PUTs. */
    method PayThirdParty(request: ThirdPartyPaymentRequest, env: Env) returns (r: Result<(), Error>)
      requires Valid() && FreshIds(ledger, env)
      modifies this
      ensures Valid()
      ensures Outcome(Current(), r) == PayThirdPartySpec(old(Current()), request, env)
    {
      var fromId, toId, amount := request.fromProductId, request.toProductId, request.amount;
      if fromId.None? || toId.None? || fromId.value !in products || toId.value !in products {
        return Err(Failed(ProductFetchFailed));
      }
      var f, t := fromId.value, toId.value;
      var from, to := products[f], products[t];
      if from.clientId.None? {
        return Err(Failed(NullReference));
      }
      if from.clientId == to.clientId {
        return Err(SameClient);
      }
      if !IsActivo(to.productType) {
        return Err(DestinationNotCredit);
      }
      if from.balance.None? || amount.None? {
        return Err(Failed(NullReference));
      }
      var amt := amount.value;
      if from.balance.value < amt {
        return Err(InsufficientFunds);
      }
      from := from.(balance := Some(from.balance.value - amt));
      if to.balance.None? {
        return Err(Failed(NullReference));
      }
      to := to.(balance := Some(to.balance.value + amt));
      var debit := Record(env.firstNewId, from.clientId, f, THIRD_PARTY_PAYMENT_SENT, -amt, env.now);
      var credit := Record(env.secondNewId, to.clientId, t, THIRD_PARTY_PAYMENT_RECEIVED, amt, env.now);
      AppendPairKeepsWellKeyed(ledger, debit, credit);
      ledger := ledger + [debit, credit];
      if env.firstPushOk {
        products := products[f := from];
      }
      if env.secondPushOk {
        products := products[t := to];
      }
      r := if env.firstPushOk && env.secondPushOk then Ok(()) else Err(Failed(ProductPushFailed));
    }
  }
}
