/** The EventService component as an object: its vaults are fields that the
    `&mut self` methods update in place, its fee, end epoch, admin badge
    address and service badge are set once by the constructor. Each method is
    one transaction: on every failure path it leaves every field as it was. */
module Blueprint {
  import opened Resources
  import EventSpec

  class EventService {
    var paymentVault: Vault
    var ticketVault: Vault
    const ticketFee: Amount
    const eventEnd: U64
    const eventAdmin: ResourceAddress
    const serviceAuth: Vault

    /** Ticket bookkeeping that the ledger keeps implicitly. */
    ghost const numOfTickets: Amount
    ghost var heldOutside: Amount
    ghost var burned: Amount

    /** The component's state as a value of the state machine model. */
    ghost function Model(): EventSpec.State
      reads this
    {
      EventSpec.State(paymentVault, ticketVault, ticketFee, eventEnd, eventAdmin, serviceAuth,
                      numOfTickets, heldOutside, burned)
    }

    ghost predicate Valid()
      reads this
    {
      EventSpec.Valid(Model())
    }

    /** The struct literal of `create`: an empty XRD vault, the ticket supply
        and the service badge each moved into a vault of their own. */
    constructor (serviceBadge: Bucket, eventAdmin: ResourceAddress, tickets: Bucket, ticketFee: Amount, eventEnd: U64)
      requires EventSpec.DistinctResources(serviceBadge.resource, eventAdmin, tickets.resource)
      requires serviceBadge.amount == ONE
      ensures Valid()
      ensures paymentVault == Vault(RADIX_TOKEN, 0) && ticketVault == Vault(tickets.resource, tickets.amount)
      ensures this.ticketFee == ticketFee && this.eventEnd == eventEnd && this.eventAdmin == eventAdmin
      ensures serviceAuth == Vault(serviceBadge.resource, ONE)
      ensures numOfTickets == tickets.amount && heldOutside == 0 && burned == 0
    {
      paymentVault := NewVault(RADIX_TOKEN);
      ticketVault := VaultWithBucket(tickets);
      this.ticketFee := ticketFee;
      this.eventAdmin := eventAdmin;
      this.eventEnd := eventEnd;
      serviceAuth := VaultWithBucket(serviceBadge);
      numOfTickets := tickets.amount;
      heldOutside := 0;
      burned := 0;
    }

    /** `create`: mints one service badge, one admin badge and the ticket
        supply at the three fresh addresses the ledger allocates, builds the
        component and hands the admin badge to the caller. */
    static method Create(
      ticketFee: Amount, numOfTickets: Amount, eventDuration: U64, currentEpoch: U64,
      serviceAuthAddress: ResourceAddress, eventAdminAddress: ResourceAddress, ticketAddress: ResourceAddress)
      returns (component: EventService, adminBadge: Bucket)
      requires currentEpoch + eventDuration < U64_LIMIT
      requires EventSpec.DistinctResources(serviceAuthAddress, eventAdminAddress, ticketAddress)
      ensures fresh(component) && component.Valid()
      ensures (component.Model(), adminBadge)
              == EventSpec.Create(ticketFee, numOfTickets, eventDuration, currentEpoch,
                                  serviceAuthAddress, eventAdminAddress, ticketAddress)
    {
      var serviceBadge := Bucket(serviceAuthAddress, ONE);
      adminBadge := Bucket(eventAdminAddress, ONE);
      var tickets := Bucket(ticketAddress, numOfTickets);
      component := new EventService(serviceBadge, adminBadge.resource, tickets, ticketFee, currentEpoch + eventDuration);
    }

    /** `claim_event_earnings`, behind its access rule: with a proof of the
        admin badge it empties the payment vault into the returned bucket. */
    method ClaimEventEarnings(proofs: set<ResourceAddress>) returns (r: Result<Bucket>)
      requires Valid()
      modifies this`paymentVault
      ensures Valid()
      ensures r.Ok? <==> eventAdmin in proofs
      ensures r.Ok? ==> r.value == Bucket(RADIX_TOKEN, old(paymentVault.amount)) && paymentVault.amount == 0
      ensures r.Err? ==> r.error == Unauthorized && paymentVault == old(paymentVault)
      ensures EventSpec.Step(old(Model()), EventSpec.Claim(proofs))
              == if r.Ok? then Ok((Model(), EventSpec.Earnings(r.value))) else Err(r.error)
    {
      if eventAdmin !in proofs {
        return Err(Unauthorized);
      }
      var taken := VaultTakeAll(paymentVault);
      paymentVault := taken.0;
      r := Ok(taken.1);
    }

    /** `pay_for_ticket`. The fee is put into the payment vault before the
        ticket is taken; when the ticket vault cannot supply one ticket the
        transaction aborts and that deposit is rolled back. */
    method PayForTicket(payment: Bucket) returns (r: Result<(Bucket, Bucket)>)
      requires Valid()
      modifies this`paymentVault, this`ticketVault, this`heldOutside
      ensures Valid()
      ensures r.Ok? ==>
        && paymentVault.amount == old(paymentVault.amount) + ticketFee
        && ticketVault.resource == old(ticketVault.resource) && ticketVault.amount + ONE == old(ticketVault.amount)
        && r.value.0.resource == RADIX_TOKEN && r.value.0.amount + ticketFee == payment.amount
        && r.value.1 == Bucket(ticketVault.resource, ONE)
      ensures r.Err? ==> Model() == old(Model())
      ensures EventSpec.PayForTicket(old(Model()), payment)
              == if r.Ok? then Ok((Model(), r.value.0, r.value.1)) else Err(r.error)
    {
      if payment.resource != RADIX_TOKEN {
        return Err(WrongCurrency);
      }
      if payment.amount < ticketFee {
        return Err(InsufficientPayment);
      }
      var split := BucketTake(payment, ticketFee).value;
      var change, fee := split.0, split.1;
      var before := paymentVault;
      paymentVault := VaultPut(paymentVault, fee);
      var taken := VaultTake(ticketVault, ONE);
      if taken.None? {
        paymentVault := before;
        return Err(SoldOut);
      }
      ticketVault := taken.value.0;
      heldOutside := heldOutside + taken.value.1.amount;
      r := Ok((change, taken.value.1));
    }

    /** `verify_ticket` (a `&self` method: no vault, fee or epoch changes).
        Up to and including the end epoch the bucket comes back; after it the
        bucket is burned under the service badge. */
    method VerifyTicket(ticket: Bucket, currentEpoch: U64) returns (r: Result<Option<Bucket>>)
      requires Valid()
      requires ticket.resource == ticketVault.resource ==> ticket.amount <= heldOutside
      modifies this`heldOutside, this`burned
      ensures Valid()
      ensures currentEpoch <= eventEnd ==> r == Ok(Some(ticket)) && Model() == old(Model())
      ensures currentEpoch > eventEnd && ticket.resource == ticketVault.resource ==>
        r == Ok(None) && burned == old(burned) + ticket.amount && heldOutside == old(heldOutside) - ticket.amount
      ensures currentEpoch > eventEnd && ticket.resource != ticketVault.resource ==>
        r == Err(BurnNotAuthorized) && Model() == old(Model())
      ensures EventSpec.VerifyTicket(old(Model()), ticket, currentEpoch)
              == if r.Ok? then Ok((Model(), r.value)) else Err(r.error)
    {
      if currentEpoch > eventEnd {
        if ticket.resource != ticketVault.resource {
          return Err(BurnNotAuthorized);
        }
        heldOutside := heldOutside - ticket.amount;
        burned := burned + ticket.amount;
        r := Ok(None);
      } else {
        r := Ok(Some(ticket));
      }
    }
  }
}
