/** The EventService blueprint as a state machine on values: its component
    state, the constructor, the three methods and the access rules the
    constructor installs. Every call either commits all its effects or none
    (the transaction engine rolls a panicking call back), so a failing call
    yields only an Error and never a state. */
module EventSpec {
  import opened Resources

  /** The component's state. The last three fields are bookkeeping that the
      ledger keeps implicitly: the ticket supply minted at creation, the
      tickets in callers' custody, and the tickets burned so far. */
  datatype State = State(
    paymentVault: Vault,
    ticketVault: Vault,
    ticketFee: Amount,
    eventEnd: U64,
    eventAdmin: ResourceAddress,
    serviceAuth: Vault,
    numOfTickets: Amount,
    heldOutside: Amount,
    burned: Amount)

  /** The address of the event's ticket resource. */
  function TicketResource(s: State): ResourceAddress {
    s.ticketVault.resource
  }

  /** The four resources the component deals in are distinct: XRD already
      exists, and the other three are minted fresh at creation. */
  predicate DistinctResources(serviceAuth: ResourceAddress, eventAdmin: ResourceAddress, ticket: ResourceAddress) {
    serviceAuth != RADIX_TOKEN && eventAdmin != RADIX_TOKEN && ticket != RADIX_TOKEN
    && serviceAuth != eventAdmin && serviceAuth != ticket && eventAdmin != ticket
  }

  /** The component invariant: the payment vault holds XRD, the service badge
      stays in custody, and every minted ticket is in the ticket vault, in a
      caller's custody, or burned. */
  predicate Valid(s: State) {
    && s.paymentVault.resource == RADIX_TOKEN
    && DistinctResources(s.serviceAuth.resource, s.eventAdmin, TicketResource(s))
    && s.serviceAuth.amount == ONE
    && s.ticketVault.amount + s.heldOutside + s.burned == s.numOfTickets
  }

  /** `create`: mints the service badge, the admin badge and the ticket
      supply (at the three fresh addresses the ledger allocates), stores
      them with an empty XRD vault, and returns the admin badge. */
  function Create(
    ticketFee: Amount, numOfTickets: Amount, eventDuration: U64, currentEpoch: U64,
    serviceAuth: ResourceAddress, eventAdmin: ResourceAddress, ticket: ResourceAddress): (r: (State, Bucket))
    requires currentEpoch + eventDuration < U64_LIMIT
    requires DistinctResources(serviceAuth, eventAdmin, ticket)
    ensures Valid(r.0)
    ensures r.0.ticketVault == Vault(ticket, numOfTickets) && r.0.numOfTickets == numOfTickets
    ensures r.0.paymentVault == Vault(RADIX_TOKEN, 0)
    ensures r.0.ticketFee == ticketFee && r.0.eventEnd == currentEpoch + eventDuration
    ensures r.0.heldOutside == 0 && r.0.burned == 0
    ensures r.1 == Bucket(eventAdmin, ONE) && r.0.eventAdmin == r.1.resource
    ensures r.0.serviceAuth == Vault(serviceAuth, ONE)
  {
    var serviceBadge := Bucket(serviceAuth, ONE);
    var adminBadge := Bucket(eventAdmin, ONE);
    var tickets := Bucket(ticket, numOfTickets);
    var s := State(
      paymentVault := NewVault(RADIX_TOKEN),
      ticketVault := VaultWithBucket(tickets),
      ticketFee := ticketFee,
      eventEnd := currentEpoch + eventDuration,
      eventAdmin := adminBadge.resource,
      serviceAuth := VaultWithBucket(serviceBadge),
      numOfTickets := tickets.amount,
      heldOutside := 0,
      burned := 0);
    (s, adminBadge)
  }

  /** `claim_event_earnings`: hands out the whole payment vault. */
  function ClaimEventEarnings(s: State): (r: (State, Bucket))
    ensures r.1.resource == s.paymentVault.resource && r.1.amount == s.paymentVault.amount
    ensures r.0 == s.(paymentVault := Vault(s.paymentVault.resource, 0))
    ensures Valid(s) ==> Valid(r.0) && r.1.resource == RADIX_TOKEN
  {
    var (emptied, earnings) := VaultTakeAll(s.paymentVault);
    (s.(paymentVault := emptied), earnings)
  }

  /** `pay_for_ticket`: checks the currency and the amount, moves the fee into
      the payment vault and hands out one ticket plus the change. When the
      ticket vault holds less than one ticket the call aborts, and the fee
      already put into the payment vault is rolled back with it. */
  function PayForTicket(s: State, payment: Bucket): (r: Result<(State, Bucket, Bucket)>)
    requires Valid(s)
    ensures r.Err? <==> payment.resource != RADIX_TOKEN || payment.amount < s.ticketFee || s.ticketVault.amount < ONE
    ensures payment.resource != RADIX_TOKEN ==> r == Err(WrongCurrency)
    ensures payment.resource == RADIX_TOKEN && payment.amount < s.ticketFee ==> r == Err(InsufficientPayment)
    ensures payment.resource == RADIX_TOKEN && s.ticketFee <= payment.amount && s.ticketVault.amount < ONE
            ==> r == Err(SoldOut)
    ensures r.Ok? ==>
      var (t, change, ticket) := r.value;
      && Valid(t)
      && t.paymentVault.amount == s.paymentVault.amount + s.ticketFee
      && t.ticketVault.amount + ONE == s.ticketVault.amount
      && change.resource == RADIX_TOKEN && change.amount + s.ticketFee == payment.amount
      && ticket == Bucket(TicketResource(s), ONE)
      && t == s.(paymentVault := Vault(RADIX_TOKEN, s.paymentVault.amount + s.ticketFee),
                 ticketVault := Vault(TicketResource(s), s.ticketVault.amount - ONE),
                 heldOutside := s.heldOutside + ONE)
  {
    if payment.resource != RADIX_TOKEN then Err(WrongCurrency)
    else if payment.amount < s.ticketFee then Err(InsufficientPayment)
    else
      var (change, fee) := BucketTake(payment, s.ticketFee).value;
      var paid := VaultPut(s.paymentVault, fee);
      match VaultTake(s.ticketVault, ONE)
      case None => Err(SoldOut)
      case Some((rest, ticket)) =>
        Ok((s.(paymentVault := paid, ticketVault := rest, heldOutside := s.heldOutside + ticket.amount), change, ticket))
  }

  /** A caller can only present tickets that are in some caller's custody:
      buckets cannot be forged. */
  predicate CanPresent(s: State, b: Bucket) {
    b.resource == TicketResource(s) ==> b.amount <= s.heldOutside
  }

  /** Only the ticket resource has a burn rule that the service badge meets. */
  predicate BurnableWithServiceBadge(s: State, b: Bucket) {
    b.resource == TicketResource(s)
  }

  /** `verify_ticket`: up to and including the end epoch the presented bucket
      comes back untouched; after it, the bucket is burned under the service
      badge and nothing comes back. The component's own fields never change. */
  function VerifyTicket(s: State, ticket: Bucket, currentEpoch: U64): (r: Result<(State, Option<Bucket>)>)
    requires CanPresent(s, ticket)
    ensures currentEpoch <= s.eventEnd ==> r == Ok((s, Some(ticket)))
    ensures currentEpoch > s.eventEnd ==> (r.Ok? <==> ticket.resource == TicketResource(s))
    ensures currentEpoch > s.eventEnd && r.Ok? ==>
      r.value.1 == None
      && r.value.0 == s.(heldOutside := s.heldOutside - ticket.amount, burned := s.burned + ticket.amount)
    ensures r.Err? ==> r.error == BurnNotAuthorized
    ensures r.Ok? ==> r.value.0.paymentVault == s.paymentVault && r.value.0.ticketVault == s.ticketVault
    ensures Valid(s) && r.Ok? ==> Valid(r.value.0)
  {
    if currentEpoch > s.eventEnd then
      if BurnableWithServiceBadge(s, ticket) then
        Ok((s.(heldOutside := s.heldOutside - ticket.amount, burned := s.burned + ticket.amount), None))
      else
        Err(BurnNotAuthorized)
    else
      Ok((s, Some(ticket)))
  }

  /** A call on the component, with what the caller attaches to it: the
      proofs in its auth zone, the payment bucket, or the ticket bucket and
      the epoch the ledger reports. */
  datatype Call =
    | Claim(proofs: set<ResourceAddress>)
    | Pay(payment: Bucket)
    | Verify(ticket: Bucket, currentEpoch: U64)

  datatype Output =
    | Earnings(earnings: Bucket)
    | Purchase(change: Bucket, ticket: Bucket)
    | Verdict(returned: Option<Bucket>)

  /** The access rules installed by `create`: `claim_event_earnings` needs a
      proof of the admin badge, every other method allows all callers. */
  predicate AccessAllowed(s: State, c: Call) {
    match c
    case Claim(proofs) => s.eventAdmin in proofs
    case _ => true
  }

  predicate Presentable(s: State, c: Call) {
    c.Verify? ==> CanPresent(s, c.ticket)
  }

  /** One call through the component's access check and into its method. */
  function Step(s: State, c: Call): (r: Result<(State, Output)>)
    requires Valid(s) && Presentable(s, c)
    ensures r == Err(Unauthorized) <==> c.Claim? && s.eventAdmin !in c.proofs
    ensures c.Claim? ==> (r.Ok? <==> s.eventAdmin in c.proofs)
    ensures r.Ok? ==> Valid(r.value.0)
    ensures r.Ok? ==>
      && r.value.0.ticketFee == s.ticketFee && r.value.0.eventEnd == s.eventEnd
      && r.value.0.eventAdmin == s.eventAdmin && r.value.0.serviceAuth == s.serviceAuth
      && TicketResource(r.value.0) == TicketResource(s) && r.value.0.numOfTickets == s.numOfTickets
  {
    if !AccessAllowed(s, c) then Err(Unauthorized)
    else match c
      case Claim(_) =>
        var (t, earnings) := ClaimEventEarnings(s);
        Ok((t, Earnings(earnings)))
      case Pay(payment) =>
        (match PayForTicket(s, payment)
         case Err(e) => Err(e)
         case Ok((t, change, ticket)) => Ok((t, Purchase(change, ticket))))
      case Verify(ticket, epoch) =>
        (match VerifyTicket(s, ticket, epoch)
         case Err(e) => Err(e)
         case Ok((t, returned)) => Ok((t, Verdict(returned))))
  }

  /** The state after a call: a failed call is rolled back entirely. */
  function Next(s: State, c: Call): (t: State)
    requires Valid(s) && Presentable(s, c)
    ensures Valid(t)
    ensures Step(s, c).Err? ==> t == s
  {
    match Step(s, c)
    case Ok((t, _)) => t
    case Err(_) => s
  }
}
