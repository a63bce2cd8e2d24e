# Movement service: admission rules, transfers and third-party payments

This project models the core of a bank's movement service (`MovementServiceImpl` and the
Kafka listener that feeds it) and proves properties of that model in Dafny.

The service records movements (deposits, withdrawals, payments, consumptions, third-party
payment legs) against products that another service owns. It keeps each product's balance
on that service consistent with its own ledger of movements. The two are not joined by any
transaction. The model covers these parts:

- **Single-movement admission** (`save`, `validarMovimiento`, `actualizarBalanceYGuardar`).
  The checks run in source order: the credit-card client-type guard, the fixed-term
  withdrawal day, the transaction fee (driven by this month's movement count), the credit
  limit on the fee-adjusted amount, and the new balance. Then the product is pushed and the
  movement saved. The pure rules are in `MovementRules.Admit`. The state change is in
  `Orchestrator.SaveSpec` and in the method `Service.MovementServiceImpl.Save`.
- **Transfer** (`transfer`): argument checks, both product fetches, the funds check, both
  product pushes, then a withdrawal/deposit pair in the ledger, written only if both pushes
  went through.
- **Third-party payment** (`payThirdParty`): the same-client, `"activo"` destination and
  funds guards. The sent leg is recorded at minus the amount and the received leg at plus
  the amount. Here the ledger is written before the pushes.
- **Date-range query** and **update by id**.
- **Kafka listener**: Yanki events go straight to `transfer`. For Bootcoin events, the
  routing picks the account ids or the Yanki wallet ids on both sides.

The model works like this:

- The product service is a `map<string, Product>` and the movements collection is a
  `seq<Movement>`. Both are fields of the class `Service.MovementServiceImpl`.
- A GET copies a record out of the map. A PUT replaces it whole, but only when the
  environment lets that PUT through (`Env.firstPushOk`, `Env.secondPushOk`). This makes the
  partial-failure windows stateable.
- The clock (`Env.now`) and the ids the store generates (`Env.firstNewId`,
  `Env.secondNewId`) are parameters. Today's day of the month and the start of the month are
  derived from `Env.now`.
- Every nullable Java value the code dereferences is an `Option`. The null dereferences the
  code can hit are modelled as errors at the point where they are thrown.

Each state-changing method is proved equal to a specification function (`SaveSpec`,
`TransferSpec`, `PayThirdPartySpec`, `ProcessBootcoinSpec`). The lemmas in
`OrchestratorProperties` and `KafkaListener` state what those functions promise. One of them
is a ledger/balance agreement: each product's balance moves by exactly the signed amounts of
the new ledger entries. This holds in three cases:

- a successful `save` of a new movement (no id) whose type is not a third-party leg
  (`SaveLedgerAgrees`);
- a successful transfer between two distinct products (`TransferLedgerAgrees`);
- every successful third-party payment (`ThirdPartyLedgerAgrees`).

It does not hold in the other cases. A transfer from a product to itself moves the balance
while its ledger pair nets to zero. A `save` of a third-party leg leaves the balance alone.
A `save` that upserts a stored id adds no ledger entry while the balance moves.

Facts about the code that the model keeps as they are:

- No SAVINGS monthly-movement-limit rule exists in the code. `monthlyMovementLimit` is
  carried but never read.
- Every error of `save` comes out wrapped as an unexpected error, rule rejections included.
  The handler at line 113 re-raises a status exception, and the catch-all chained after it
  at line 117 catches that error too. So an ineligible client type comes out as
  `Unexpected(IneligibleClientType)` and a failed product GET as
  `Unexpected(Failed(ProductFetchFailed))` (`SaveSpec`; see "## Findings").
- `save` does not set the movement's date. The saved movement keeps the date the caller
  sent, which may be null.
- `payThirdParty` writes the ledger pair before the two pushes, not after. It has no check on
  the sign of the amount (`ThirdPartyAcceptsNegativeAmount`).
- The third-party destination type is compared with `"activo"`. The values the product
  record's comment documents (`"ACTIVE"`, `"PASSIVE"`) never pass
  (`ThirdPartyRefusesDocumentedTypes`).
- `transfer` does not refuse a transfer from a product to itself. Both copies are sent by
  `Mono.when` at line 234, which issues the two PUTs concurrently. The copy the product
  service applies last wins, so the balance ends up at plus or minus the amount, while the
  ledger pair cancels out. `TransferToItself` shows the case where the debited copy lands
  first, so the balance grows by the amount.

## Model

| member | source | states |
|---|---|---|
| `MovementRules.Admit` | src/main/java/com/bank/ayrton/movement_service/service/movement/MovementServiceImpl.java:99-172 | an admitted movement differs from the proposed one only in its amount, and its product only in its balance; a refusal is one of the three rule rejections or the null dereference of the amount |
| `MovementRules.CreditCardClientType` | src/main/java/com/bank/ayrton/movement_service/service/movement/MovementServiceImpl.java:99-106 | a credit-card product whose client type is neither "personal" nor "empresarial" (any case, null included) is refused with the client-type error, before any other rule; that error arises in no other case |
| `MovementRules.FixedTermWithdrawalDay` | src/main/java/com/bank/ayrton/movement_service/service/movement/MovementServiceImpl.java:127-133 | a withdrawal on a fixed-term product is refused with the day error iff `allowedMovementDay` is set and differs from today's day of the month |
| `MovementRules.FeeAppliedOnce` | src/main/java/com/bank/ayrton/movement_service/service/movement/MovementServiceImpl.java:142-147 | an admitted movement equals the proposed one except its amount, which is the amount plus `transactionFee` exactly once when both limits are set and the month's count reached `freeTransactionLimit`, and unchanged otherwise |
| `MovementRules.CreditLimitRule` | src/main/java/com/bank/ayrton/movement_service/service/movement/MovementServiceImpl.java:150-157 | a withdrawal on a personal-credit, business-credit or credit-card product with a limit is refused for the limit iff the fee-adjusted amount exceeds it; an admitted one is within the limit |
| `MovementRules.AdmittedBalance` | src/main/java/com/bank/ayrton/movement_service/service/movement/MovementServiceImpl.java:166-172 | admission changes only the product's balance: old balance (null as 0) plus the adjusted amount for a deposit, minus it for a withdrawal, and the balance untouched (null stays null) for every other type |
| `Orchestrator.SaveSteps` | src/main/java/com/bank/ayrton/movement_service/service/movement/MovementServiceImpl.java:74-110 | the pipeline before the error handlers (client lookup at 74-86, product GET at 90-97, the rules, the PUT then the save at 175-180): a failing step changes nothing |
| `Orchestrator.SaveSpec` | src/main/java/com/bank/ayrton/movement_service/service/movement/MovementServiceImpl.java:70-121 | `save` with its handlers: every error leaves products and ledger unchanged and comes out wrapped as unexpected |
| `OrchestratorProperties.SaveWrapsRuleRejection` | src/main/java/com/bank/ayrton/movement_service/service/movement/MovementServiceImpl.java:100-121 | a credit card whose client type is not eligible makes `save` fail with the client-type rejection inside an unexpected error, writing nothing; the intended handling would return the rejection as raised |
| `OrchestratorProperties.IntendedSaveSurfacesRejections` | src/main/java/com/bank/ayrton/movement_service/service/movement/MovementServiceImpl.java:113-121 | with the handlers as intended, rule rejections come back as raised and only other failures are wrapped; state and successes are those of `save` as written |
| `OrchestratorProperties.SaveAdmission` | src/main/java/com/bank/ayrton/movement_service/service/movement/MovementServiceImpl.java:160-180 | on admission the product push went through before the save, only the movement's product changed and only in its balance, by the stored movement's delta; the stored movement carries the fee-adjusted amount; a movement without id is appended as exactly one new entry under the generated id |
| `OrchestratorProperties.SaveCountsTowardsFreeLimit` | src/main/java/com/bank/ayrton/movement_service/service/movement/MovementServiceImpl.java:135-143 | admitting a new movement raises the product's count of movements dated after the start of the month, which the fee rule reads, by one if the movement is dated after it and by zero otherwise |
| `OrchestratorProperties.SaveLedgerAgrees` | src/main/java/com/bank/ayrton/movement_service/service/movement/MovementServiceImpl.java:166-180 | after an admitted new movement of a type other than the third-party legs, every product's balance moved by exactly the signed amount of the new ledger entry |
| `Orchestrator.TransferSpec` | src/main/java/com/bank/ayrton/movement_service/service/movement/MovementServiceImpl.java:185-237 | every error other than a failed PUT leaves the state unchanged; the ledger gains exactly two entries after the old ones on success and is untouched on every error |
| `OrchestratorProperties.TransferArgumentChecks` | src/main/java/com/bank/ayrton/movement_service/service/movement/MovementServiceImpl.java:189-197 | a null or blank id, and then a null or non-positive amount, is refused with its own error whatever the remote state is (no fetch), and nothing is written |
| `OrchestratorProperties.TransferFundsCheck` | src/main/java/com/bank/ayrton/movement_service/service/movement/MovementServiceImpl.java:212-214 | with valid arguments and both products found, the insufficient-funds error happens iff the source balance is null or below the amount, and then no push and no ledger write happen |
| `OrchestratorProperties.TransferSucceeds` | src/main/java/com/bank/ayrton/movement_service/service/movement/MovementServiceImpl.java:216-235 | a successful transfer between distinct products changes the two products only in their balances: the source is debited and the destination credited (null as 0) by the amount; preserves the sum of the two balances, touches no other product, and appends exactly a WITHDRAWAL on the source and a DEPOSIT on the destination with that amount |
| `OrchestratorProperties.TransferPushFailure` | src/main/java/com/bank/ayrton/movement_service/service/movement/MovementServiceImpl.java:222-235 | when a push fails no ledger entry is written, and each product's balance changed exactly when its own push went through (no compensation) |
| `OrchestratorProperties.TransferLedgerAgrees` | src/main/java/com/bank/ayrton/movement_service/service/movement/MovementServiceImpl.java:216-235 | after a successful transfer between distinct products every balance moved by exactly the signed amounts of the two new entries |
| `OrchestratorProperties.TransferToItself` | src/main/java/com/bank/ayrton/movement_service/service/movement/MovementServiceImpl.java:200-235 | a transfer from a product to itself succeeds; with the debited copy applied before the credited one, the balance grows by the amount while the two new entries net to zero (the source runs both PUTs concurrently, so the other order, ending at minus the amount, is possible there too) |
| `Orchestrator.PayThirdPartySpec` | src/main/java/com/bank/ayrton/movement_service/service/movement/MovementServiceImpl.java:273-342 | every error other than a failed PUT leaves the state unchanged; on success and on a failed PUT alike the ledger has gained exactly two entries after the old ones |
| `OrchestratorProperties.ThirdPartyGuardOrder` | src/main/java/com/bank/ayrton/movement_service/service/movement/MovementServiceImpl.java:293-306 | once both products are found: same client iff the client ids are equal; for different clients, the destination error iff its type is not "activo" in any case; past both, insufficient funds iff the source balance is below the amount |
| `OrchestratorProperties.ThirdPartyRefusesDocumentedTypes` | src/main/java/com/bank/ayrton/movement_service/service/movement/MovementServiceImpl.java:298-301 | a destination whose type is "ACTIVE" or "PASSIVE" is always refused, and nothing is written |
| `OrchestratorProperties.ThirdPartySucceeds` | src/main/java/com/bank/ayrton/movement_service/service/movement/MovementServiceImpl.java:308-340 | a successful payment is between distinct products, changes the two products only in their balances, by minus and plus the amount, touches no other product, and appends a SENT leg of minus the amount on the source and a RECEIVED leg of the amount on the destination, summing to zero |
| `OrchestratorProperties.ThirdPartyLedgerBeforePush` | src/main/java/com/bank/ayrton/movement_service/service/movement/MovementServiceImpl.java:331-340 | when a push fails the ledger pair is already written, while each balance changed exactly when its own push went through |
| `OrchestratorProperties.ThirdPartyLedgerAgrees` | src/main/java/com/bank/ayrton/movement_service/service/movement/MovementServiceImpl.java:309-340 | after a successful payment every balance moved by exactly the signed amounts of the two new entries |
| `OrchestratorProperties.ThirdPartyAcceptsNegativeAmount` | src/main/java/com/bank/ayrton/movement_service/service/movement/MovementServiceImpl.java:303-312 | a negative amount that passes the other guards is accepted and raises the source's balance |
| `JavaText.ActiveIsNotActivo` | src/main/java/com/bank/ayrton/movement_service/service/movement/MovementServiceImpl.java:298 | under Java's case-insensitive comparison "ACTIVE" differs from "activo" while "ACTIVO" and "Activo" match it |
| `Ledger.Persist` | src/main/java/com/bank/ayrton/movement_service/service/movement/MovementServiceImpl.java:180 | `repository.save`: every stored document is kept in its place, except that the one with the movement's id is replaced by the movement; a movement without id, or with an id not yet stored, is appended once as the last document; a movement without id is stored under the generated id; the stored document is the movement with its id set |
| `Ledger.CountSince` | src/main/java/com/bank/ayrton/movement_service/service/movement/MovementServiceImpl.java:135-137 | the month's count of the product's movements dated after the start is at most the ledger's length, and zero iff no movement is counted |
| `Ledger.FindById` | src/main/java/com/bank/ayrton/movement_service/service/movement/MovementServiceImpl.java:243 | finds a movement iff some stored movement has the id, and what it finds is stored and carries that id |
| `Ledger.ReplaceById` | src/main/java/com/bank/ayrton/movement_service/service/movement/MovementServiceImpl.java:245-246 | the ledger keeps its length and order; exactly the entries with the id are replaced |
| `Ledger.PersistKeepsWellKeyed` | src/main/java/com/bank/ayrton/movement_service/service/movement/MovementServiceImpl.java:180 | saving (insert under a fresh generated id, or upsert by the movement's own id) keeps every stored id present and unique |
| `Ledger.AppendPairKeepsWellKeyed` | src/main/java/com/bank/ayrton/movement_service/service/movement/MovementServiceImpl.java:235 | the batch save of two new movements under two distinct unused ids keeps every stored id present and unique |
| `Ledger.CountSinceAppend` | src/main/java/com/bank/ayrton/movement_service/service/movement/MovementServiceImpl.java:135-137 | the month's movement count over a concatenated ledger is the sum of the counts of its parts |
| `Ledger.RangeScan` | src/main/java/com/bank/ayrton/movement_service/service/movement/MovementServiceImpl.java:264-269 | every emitted movement is stored, on the product and dated within from..to inclusive; the stream fails iff some movement of the product has a null date |
| `Ledger.RangeScanExact` | src/main/java/com/bank/ayrton/movement_service/service/movement/MovementServiceImpl.java:264-269 | when the product's movements are all dated, the query completes and emits exactly the product's movements whose calendar date d satisfies from <= d <= to |
| `Ledger.RangeScanAppend` | src/main/java/com/bank/ayrton/movement_service/service/movement/MovementServiceImpl.java:264-269 | the query preserves store order: over a concatenation it emits the first part's matches followed by the second's |
| `Service.MovementServiceImpl.Save` | src/main/java/com/bank/ayrton/movement_service/service/movement/MovementServiceImpl.java:70-181 | the new products, ledger and result are those of `SaveSpec`, so every failure is wrapped as unexpected; the ledger stays well keyed |
| `Service.MovementServiceImpl.Transfer` | src/main/java/com/bank/ayrton/movement_service/service/movement/MovementServiceImpl.java:185-237 | the new products, ledger and result are those of `TransferSpec`; the ledger stays well keyed |
| `Service.MovementServiceImpl.Update` | src/main/java/com/bank/ayrton/movement_service/service/movement/MovementServiceImpl.java:241-248 | a missing id writes nothing and returns empty; an existing id stores the movement with its id set to the given one in place of the old entry; products unchanged |
| `Service.MovementServiceImpl.GetMovementsByProductAndDateRange` | src/main/java/com/bank/ayrton/movement_service/service/movement/MovementServiceImpl.java:264-270 | returns the range query over the current ledger, whose properties are proved in `Ledger` |
| `Service.MovementServiceImpl.PayThirdParty` | src/main/java/com/bank/ayrton/movement_service/service/movement/MovementServiceImpl.java:273-342 | the new products, ledger and result are those of `PayThirdPartySpec`; the ledger stays well keyed |
| `KafkaListener.RouteTransfer` | src/main/java/com/bank/ayrton/movement_service/config/KafkaMovementListener.java:57-70 | routing succeeds iff both selected ids are set, and then routes from the buyer's selected id to the seller's; otherwise the routing error |
| `KafkaListener.ProcessBootcoinSpec` | src/main/java/com/bank/ayrton/movement_service/config/KafkaMovementListener.java:49-78 | no state changes unless both wallets arrived and routing found both ids |
| `KafkaListener.AccountRoute` | src/main/java/com/bank/ayrton/movement_service/config/KafkaMovementListener.java:60-62 | with transfer method ACCOUNT the route goes from the buyer's associated account to the seller's |
| `KafkaListener.YankiRoute` | src/main/java/com/bank/ayrton/movement_service/config/KafkaMovementListener.java:63-65 | with any other method, null included, the route goes from the buyer's Yanki wallet to the seller's |
| `KafkaListener.NullRouteNotTransferred` | src/main/java/com/bank/ayrton/movement_service/config/KafkaMovementListener.java:68-70 | a null selected id on either side ends in the routing error with the state unchanged, without calling transfer |
| `KafkaListener.RoutedTransfer` | src/main/java/com/bank/ayrton/movement_service/config/KafkaMovementListener.java:74 | otherwise the outcome is transfer's with the selected ids and the event's amount unchanged |
| `KafkaListener.Listen` | src/main/java/com/bank/ayrton/movement_service/config/KafkaMovementListener.java:28-35 | the outcome is transfer's on the event's fromCard, toCard and amount, untransformed |
| `KafkaListener.ProcessBootcoinTransfer` | src/main/java/com/bank/ayrton/movement_service/config/KafkaMovementListener.java:49-78 | the outcome is `ProcessBootcoinSpec`'s: a failed wallet lookup or a null route writes nothing, else transfer's outcome |

## Findings

| source | as written | input that shows it | evidently intended | confidence | as-written member | corrected member |
|---|---|---|---|---|---|---|
| src/main/java/com/bank/ayrton/movement_service/service/movement/MovementServiceImpl.java:113-121 | the status-exception handler re-raises the error, and the catch-all chained after it wraps that error as a 500 "unexpected error" | `save` of a movement on a CREDIT_CARD product whose client type is null: it fails with `Unexpected(IneligibleClientType)` | the three rule rejections leave `save` as raised; only other failures are wrapped | high (reasoned from the Reactor operator chain), not executed | `Orchestrator.SaveSpec`, `OrchestratorProperties.SaveWrapsRuleRejection` | `Orchestrator.IntendedSaveSpec`, `OrchestratorProperties.IntendedSaveSurfacesRejections` |

The service class keeps the behaviour as written (`Service.MovementServiceImpl.Save` follows
`SaveSpec`). The two definitions agree on the state and on every success
(`IntendedSaveSurfacesRejections`), so every other property of `save` holds for both.

## Left out

- Reactive plumbing is not modelled: `Mono.zip`, `Mono.when` and `.subscribe()`. Each call is
  a sequence of steps. The two pushes of a transfer or payment run concurrently in the source
  (`Mono.when`); the model applies them source first, then destination, so the case where
  the destination's PUT lands first is not modelled. Both are always attempted: the cancellation of the sibling PUT when one fails
  is not modelled.
- Concurrent operations racing on the same product (stale balance or stale count) are not
  modelled. Each operation runs alone on the state.
- A failed PUT is one that did not apply. A PUT that applied but answered with an error (a
  timeout after the write) is not modelled.
- Ledger writes always succeed. A failing movement store is not modelled.
- The Redis cache in front of the client service (lines 74-86) is not modelled. The lookup is
  the `clients` map, so a stale cache entry is not modelled.
- The HTTP layer (MovementController.java) and its status codes are not modelled. The errors
  are kept as distinct `Errors.Error` values instead. Logging is not modelled either.
- Amounts and balances are `int` (for example cents). `Double` rounding is not modelled.
- Mongo's mapping of `LocalDateTime` to an instant (time zone, millisecond precision) is not
  modelled. Dates compare field by field and are not checked to be valid calendar dates.
- The two `LocalDateTime.now()` calls in a transfer or payment are one instant, `Env.now`.
- Ids the store generates are parameters. The store is trusted to hand out unused ones
  (`FreshIds`).
- The product record's own `id` field is omitted. The record fetched for an id is taken to
  carry that id, so `from.getId()` equals the requested id.
- A null product id in a GET URI is a failed fetch. In `save`, a product service answering with
  an empty body (the NOT_FOUND error of line 96) is not told apart from a failed fetch.
- `Orchestrator.TransferSpec`: a product GET that answers with an empty body is not
  modelled. `transfer` combines its two GETs with `zipWith` (lines 200-207). An empty
  answer makes the zip complete empty, so `transfer` completes successfully with nothing
  pushed and nothing written. The model reports a fetch failure instead.
- `Orchestrator.PayThirdPartySpec`: the same holds for the `Mono.zip` at line 288. On an
  empty answer, `payThirdParty` completes successfully with nothing written, and the
  controller reports the payment as made. The model reports a fetch failure instead.
- `KafkaListener.ProcessBootcoinSpec`: the wallet lookups are zipped the same way
  (KafkaMovementListener.java lines 50-53). An empty wallet answer means no transfer is
  made while success is logged. The model's None for a wallet stands for a failed lookup
  and gives an error.
- `Orchestrator.SaveSteps`: a client lookup that completes empty is not modelled. This
  happens when the client is not cached and the client service answers with an empty body.
  Then `save` completes empty, with no error and no write. The model treats every client
  lookup as either found or failed, and a failed one is an error wrapped as unexpected.
- `movement.setAmount` and `movement.setId` change the caller's object in the source. Here
  they produce a new movement value, so aliasing of the caller's object is not captured.
- `JavaText.EqualsIgnoreCase` knows ASCII case plus the four non-ASCII characters whose Java
  case mapping is an ASCII letter. It is exact against the ASCII literals the service uses,
  but not for comparing two arbitrary non-ASCII strings.
- `findAll`, `findById`, `delete` and `findByClientId` are repository pass-throughs and are
  not modelled.
- The duplicate Yanki listener `handleYankiMovement` (MovementServiceImpl.java lines 44-52)
  is not modelled separately. It behaves as `KafkaListener.Listen`.
- The wallet directory lookup `getWalletById` is not modelled. Its answers are the `buyer` and
  `seller` parameters, with None for a failed lookup.
- The Kafka, Redis and WebClient configuration classes are not modelled.
- `OrchestratorProperties.SaveLedgerAgrees` excludes movements of the two third-party types
  that a caller posts to `save`. `save` does not move the balance for them, while the ledger
  reading counts their signed amount.
