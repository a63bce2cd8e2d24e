/** KafkaMovementListener: turns transfer events into calls of the service's transfer.
    The outcome, which the source only logs, is returned so that it can be stated. */
module KafkaListener {
  import opened Wrappers
  import opened Errors
  import opened Orchestrator
  import Service

  datatype TransferMethod = YANKI | ACCOUNT

  datatype YankiMovementEvent = YankiMovementEvent(fromCard: Option<string>, toCard: Option<string>, amount: Option<int>)

  /** The two product links of a Bootcoin wallet. */
  datatype BootcoinWallet = BootcoinWallet(associatedYankiWalletId: Option<string>, associatedAccountId: Option<string>)

  datatype BootcoinTransactionEvent = BootcoinTransactionEvent(
    buyerWalletId: Option<string>,
    sellerWalletId: Option<string>,
    amount: Option<int>,
    transferMethod: Option<TransferMethod>)

  /** The source and destination product ids a Bootcoin event is routed to. */
  datatype Route = Route(fromProductId: string, toProductId: string)

  /** The wallet's account for an ACCOUNT transfer, its Yanki wallet for any other method
      (a null method included). */
  function SelectProduct(transferMethod: Option<TransferMethod>, w: BootcoinWallet): Option<string> {
    if transferMethod == Some(ACCOUNT) then w.associatedAccountId else w.associatedYankiWalletId
  }

  /** The routing of processBootcoinTransfer: the buyer pays, the seller receives; a null
      id on either side is an error. */
  function RouteTransfer(transferMethod: Option<TransferMethod>, buyer: BootcoinWallet, seller: BootcoinWallet): (r: Result<Route, Error>)
    ensures r.Ok? <==> SelectProduct(transferMethod, buyer).Some? && SelectProduct(transferMethod, seller).Some?
    ensures r.Ok? ==>
      && SelectProduct(transferMethod, buyer) == Some(r.value.fromProductId)
      && SelectProduct(transferMethod, seller) == Some(r.value.toProductId)
    ensures r.Err? ==> r.error == MissingAssociatedProduct
  {
    var f := SelectProduct(transferMethod, buyer);
    var t := SelectProduct(transferMethod, seller);
    if f.None? || t.None? then Err(MissingAssociatedProduct) else Ok(Route(f.value, t.value))
  }

  /** processBootcoinTransfer, given what the wallet lookups answered (None for a failed one):
      the transfer is made only when both wallets arrived and routing found both ids. */
  function ProcessBootcoinSpec(s: State, event: BootcoinTransactionEvent, buyer: Option<BootcoinWallet>,
                               seller: Option<BootcoinWallet>, env: Env): (o: Outcome<()>)
    ensures o.state == s
         || (buyer.Some? && seller.Some? && RouteTransfer(event.transferMethod, buyer.value, seller.value).Ok?)
  {
    if buyer.None? || seller.None? then Outcome(s, Err(Failed(WalletFetchFailed)))
    else match RouteTransfer(event.transferMethod, buyer.value, seller.value)
      case Err(e) => Outcome(s, Err(e))
      case Ok(route) => TransferSpec(s, Some(route.fromProductId), Some(route.toProductId), event.amount, env)
  }

  /** An ACCOUNT transfer goes from the buyer's account to the seller's account. */
  lemma AccountRoute(buyer: BootcoinWallet, seller: BootcoinWallet)
    requires buyer.associatedAccountId.Some? && seller.associatedAccountId.Some?
    ensures RouteTransfer(Some(ACCOUNT), buyer, seller)
         == Ok(Route(buyer.associatedAccountId.value, seller.associatedAccountId.value))
  {
  }

  /** Any other transfer goes from the buyer's Yanki wallet to the seller's Yanki wallet. */
  lemma YankiRoute(transferMethod: Option<TransferMethod>, buyer: BootcoinWallet, seller: BootcoinWallet)
    requires transferMethod != Some(ACCOUNT)
    requires buyer.associatedYankiWalletId.Some? && seller.associatedYankiWalletId.Some?
    ensures RouteTransfer(transferMethod, buyer, seller)
         == Ok(Route(buyer.associatedYankiWalletId.value, seller.associatedYankiWalletId.value))
  {
  }

  /** When the id selected on either side is null, the event ends in an error and transfer is
      not called: nothing is written. */
  lemma NullRouteNotTransferred(s: State, event: BootcoinTransactionEvent, buyer: BootcoinWallet,
                                seller: BootcoinWallet, env: Env)
    requires SelectProduct(event.transferMethod, buyer).None? || SelectProduct(event.transferMethod, seller).None?
    ensures ProcessBootcoinSpec(s, event, Some(buyer), Some(seller), env) == Outcome(s, Err(MissingAssociatedProduct))
  {
  }

  /** Otherwise transfer is called once, with the selected ids and the event's amount as is. */
  lemma RoutedTransfer(s: State, event: BootcoinTransactionEvent, buyer: BootcoinWallet,
                       seller: BootcoinWallet, env: Env)
    requires SelectProduct(event.transferMethod, buyer).Some? && SelectProduct(event.transferMethod, seller).Some?
    ensures ProcessBootcoinSpec(s, event, Some(buyer), Some(seller), env)
         == TransferSpec(s, SelectProduct(event.transferMethod, buyer), SelectProduct(event.transferMethod, seller),
                         event.amount, env)
  {
  }

  /** listen: a Yanki event's cards and amount go to transfer unchanged. */
  method Listen(service: Service.MovementServiceImpl, event: YankiMovementEvent, env: Env) returns (logged: Result<(), Error>)
    requires service.Valid() && FreshIds(service.ledger, env)
    modifies service
    ensures service.Valid()
    ensures Outcome(service.Current(), logged)
         == TransferSpec(old(service.Current()), event.fromCard, event.toCard, event.amount, env)
  {
    logged := service.Transfer(event.fromCard, event.toCard, event.amount, env);
  }

  /** processBootcoinTransfer, with the two wallet lookups' answers as parameters. */
  method ProcessBootcoinTransfer(service: Service.MovementServiceImpl, event: BootcoinTransactionEvent,
                                 buyer: Option<BootcoinWallet>, seller: Option<BootcoinWallet>, env: Env)
    returns (logged: Result<(), Error>)
    requires service.Valid() && FreshIds(service.ledger, env)
    modifies service
    ensures service.Valid()
    ensures Outcome(service.Current(), logged) == ProcessBootcoinSpec(old(service.Current()), event, buyer, seller, env)
  {
    if buyer.None? || seller.None? {
      return Err(Failed(WalletFetchFailed));
    }
    var fromProductId, toProductId;
    if event.transferMethod == Some(ACCOUNT) {
      fromProductId, toProductId := buyer.value.associatedAccountId, seller.value.associatedAccountId;
    } else {
      fromProductId, toProductId := buyer.value.associatedYankiWalletId, seller.value.associatedYankiWalletId;
    }
    if fromProductId.None? || toProductId.None? {
      return Err(MissingAssociatedProduct);
    }
    logged := service.Transfer(fromProductId, toProductId, event.amount, env);
  }
}
