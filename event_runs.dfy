/** Sequences of calls on one component, and what holds across any of them:
    supply conservation, the immutable fields, tickets leaving the vault only
    one at a time against exactly one fee, and burns being final. */
module EventRuns {
  import opened Resources
  import opened EventSpec

  /** Every call of the sequence can be issued where it occurs: the ticket
      buckets presented are in callers' custody at that point. */
  ghost predicate Feasible(s: State, calls: seq<Call>)
    decreases |calls|
  {
    Valid(s) && (calls != [] ==> Presentable(s, calls[0]) && Feasible(Next(s, calls[0]), calls[1..]))
  }

  /** The final state and the outcome of each call, in order. */
  function Run(s: State, calls: seq<Call>): (r: (State, seq<Result<Output>>))
    requires Feasible(s, calls)
    ensures |r.1| == |calls|
    ensures Valid(r.0)
    decreases |calls|
  {
    if calls == [] then (s, [])
    else
      var (t, outs) := Run(Next(s, calls[0]), calls[1..]);
      (t, [Outcome(s, calls[0])] + outs)
  }

  /** What the caller of one call gets back. */
  function Outcome(s: State, c: Call): Result<Output>
    requires Valid(s) && Presentable(s, c)
  {
    match Step(s, c)
    case Ok((_, out)) => Ok(out)
    case Err(e) => Err(e)
  }

  /** 1 for a successful purchase, 0 for any other outcome. */
  function Sold(o: Result<Output>): nat {
    if o.Ok? && o.value.Purchase? then 1 else 0
  }

  /** The XRD a successful claim handed out, 0 for any other outcome. */
  function Claimed(o: Result<Output>): nat {
    if o.Ok? && o.value.Earnings? then o.value.earnings.amount else 0
  }

  /** The number of successful ticket purchases among the outcomes. */
  function TicketsSold(outs: seq<Result<Output>>): nat {
    if outs == [] then 0 else Sold(outs[0]) + TicketsSold(outs[1..])
  }

  /** The total XRD handed out by successful claims among the outcomes. */
  function EarningsClaimed(outs: seq<Result<Output>>): nat {
    if outs == [] then 0 else Claimed(outs[0]) + EarningsClaimed(outs[1..])
  }

  /** The fee, the end epoch, the admin badge's address, the service badge,
      the ticket resource and the currency of the payment vault never change. */
  lemma {:induction false} RunKeepsImmutables(s: State, calls: seq<Call>)
    requires Feasible(s, calls)
    ensures var t := Run(s, calls).0;
      && t.ticketFee == s.ticketFee && t.eventEnd == s.eventEnd
      && t.eventAdmin == s.eventAdmin && t.serviceAuth == s.serviceAuth
      && TicketResource(t) == TicketResource(s) && t.paymentVault.resource == s.paymentVault.resource
      && t.numOfTickets == s.numOfTickets
    decreases |calls|
  {
    if calls != [] {
      RunKeepsImmutables(Next(s, calls[0]), calls[1..]);
    }
  }

  /** Supply conservation, after any sequence of calls on a created component:
      vault + custody + burned is the number of tickets minted. */
  lemma RunConservesSupply(
    ticketFee: Amount, numOfTickets: Amount, eventDuration: U64, currentEpoch: U64,
    serviceAuth: ResourceAddress, eventAdmin: ResourceAddress, ticket: ResourceAddress, calls: seq<Call>)
    requires currentEpoch + eventDuration < U64_LIMIT
    requires DistinctResources(serviceAuth, eventAdmin, ticket)
    requires Feasible(Create(ticketFee, numOfTickets, eventDuration, currentEpoch, serviceAuth, eventAdmin, ticket).0, calls)
    ensures var t := Run(Create(ticketFee, numOfTickets, eventDuration, currentEpoch, serviceAuth, eventAdmin, ticket).0, calls).0;
      t.ticketVault.amount + t.heldOutside + t.burned == numOfTickets
  {
    var s := Create(ticketFee, numOfTickets, eventDuration, currentEpoch, serviceAuth, eventAdmin, ticket).0;
    RunKeepsImmutables(s, calls);
  }

  /** What one call does to the two vaults, by the kind of its outcome. */
  lemma StepBalances(s: State, c: Call)
    requires Valid(s) && Presentable(s, c)
    ensures var (n, o) := (Next(s, c), Outcome(s, c));
      && n.ticketFee == s.ticketFee
      && n.ticketVault.amount + ONE * Sold(o) == s.ticketVault.amount
      && n.paymentVault.amount + Claimed(o) == s.paymentVault.amount + (if Sold(o) == 1 then s.ticketFee else 0)
  {
  }

  lemma MulDistributes(a: nat, b: nat, c: nat)
    ensures a * (b + c) == a * b + a * c
  {
  }

  /** Unfolds one call of a run. */
  lemma RunFirst(s: State, calls: seq<Call>)
    requires Feasible(s, calls) && calls != []
    ensures Feasible(Next(s, calls[0]), calls[1..])
    ensures Run(s, calls).0 == Run(Next(s, calls[0]), calls[1..]).0
    ensures Run(s, calls).1[0] == Outcome(s, calls[0])
    ensures Run(s, calls).1[1..] == Run(Next(s, calls[0]), calls[1..]).1
    ensures Run(s, calls) == (Run(Next(s, calls[0]), calls[1..]).0, [Outcome(s, calls[0])] + Run(Next(s, calls[0]), calls[1..]).1)
  {
  }

  /** Nothing is ever deposited into the ticket vault: it loses exactly one
      ticket per successful purchase and nothing else, so there are never
      more purchases than whole tickets in the vault at the start. */
  lemma {:induction false} RunConservesTickets(s: State, calls: seq<Call>)
    requires Feasible(s, calls)
    ensures var (t, outs) := Run(s, calls);
      && t.ticketVault.amount + ONE * TicketsSold(outs) == s.ticketVault.amount
      && t.ticketVault.amount <= s.ticketVault.amount
      && TicketsSold(outs) <= s.ticketVault.amount / ONE
    decreases |calls|
  {
    if calls != [] {
      var n := Next(s, calls[0]);
      RunFirst(s, calls);
      StepBalances(s, calls[0]);
      RunConservesTickets(n, calls[1..]);
      var k := TicketsSold(Run(n, calls[1..]).1);
      MulDistributes(ONE, Sold(Outcome(s, calls[0])), k);
    }
  }

  /** Every XRD unit that entered the payment vault is either still there or
      was handed out by a claim, and each purchase brought in exactly the fee. */
  lemma {:induction false} RunConservesEarnings(s: State, calls: seq<Call>)
    requires Feasible(s, calls)
    ensures var (t, outs) := Run(s, calls);
      t.paymentVault.amount + EarningsClaimed(outs) == s.paymentVault.amount + s.ticketFee * TicketsSold(outs)
    decreases |calls|
  {
    if calls != [] {
      var n, o := Next(s, calls[0]), Outcome(s, calls[0]);
      RunFirst(s, calls);
      StepBalances(s, calls[0]);
      RunConservesEarnings(n, calls[1..]);
      var k := TicketsSold(Run(n, calls[1..]).1);
      MulDistributes(s.ticketFee, Sold(o), k);
      assert s.ticketFee * Sold(o) == if Sold(o) == 1 then s.ticketFee else 0;
    }
  }

  /** A burned ticket is never un-burned or reissued. */
  lemma {:induction false} RunBurnsAreFinal(s: State, calls: seq<Call>)
    requires Feasible(s, calls)
    ensures Run(s, calls).0.burned >= s.burned
    decreases |calls|
  {
    if calls != [] {
      RunBurnsAreFinal(Next(s, calls[0]), calls[1..]);
    }
  }

  /** A second claim with no payment in between succeeds and hands out nothing. */
  lemma ClaimTwiceYieldsNothing(s: State, proofs: set<ResourceAddress>)
    requires Valid(s) && s.eventAdmin in proofs
    ensures Step(Next(s, Claim(proofs)), Claim(proofs)) == Ok((Next(s, Claim(proofs)), Earnings(Bucket(RADIX_TOKEN, 0))))
  {
  }

  /** Without a proof of the admin badge a claim fails, for every balance,
      and the payment vault keeps what it holds. */
  lemma UnauthorizedClaimChangesNothing(s: State, proofs: set<ResourceAddress>)
    requires Valid(s) && s.eventAdmin !in proofs
    ensures Step(s, Claim(proofs)) == Err(Unauthorized)
    ensures Next(s, Claim(proofs)) == s
  {
  }

  /** Methods other than `claim_event_earnings` never fail for lack of a proof. */
  lemma OpenMethodsNeedNoProof(s: State, c: Call)
    requires Valid(s) && Presentable(s, c) && !c.Claim?
    ensures Step(s, c) != Err(Unauthorized)
  {
  }

  /** Unfolds a run whose first call is `c`. */
  lemma RunCons(s: State, c: Call, rest: seq<Call>)
    requires Feasible(s, [c] + rest)
    ensures Feasible(Next(s, c), rest)
    ensures Run(s, [c] + rest) == (Run(Next(s, c), rest).0, [Outcome(s, c)] + Run(Next(s, c), rest).1)
  {
  }

  /** Two distinct ticket buckets presented after the end epoch are burned
      independently of each other. */
  lemma ExpiredTicketsBurnIndependently(s: State, first: Bucket, second: Bucket, currentEpoch: U64)
    requires Valid(s) && currentEpoch > s.eventEnd
    requires first.resource == TicketResource(s) && second.resource == TicketResource(s)
    requires first.amount + second.amount <= s.heldOutside
    ensures Feasible(s, [Verify(first, currentEpoch), Verify(second, currentEpoch)])
    ensures var t := Run(s, [Verify(first, currentEpoch), Verify(second, currentEpoch)]);
      && t.0.burned == s.burned + first.amount + second.amount
      && t.0.heldOutside == s.heldOutside - first.amount - second.amount
      && t.1 == [Ok(Verdict(None)), Ok(Verdict(None))]
  {
    var v1, v2 := Verify(first, currentEpoch), Verify(second, currentEpoch);
    var n1 := Next(s, v1);
    assert n1 == s.(heldOutside := s.heldOutside - first.amount, burned := s.burned + first.amount);
    var n2 := Next(n1, v2);
    assert n2 == n1.(heldOutside := n1.heldOutside - second.amount, burned := n1.burned + second.amount);
    assert Outcome(s, v1) == Ok(Verdict(None));
    assert Outcome(n1, v2) == Ok(Verdict(None));
    assert [v2] == [v2] + [] && [v1, v2] == [v1] + [v2];
    assert Feasible(n2, []);
    assert Feasible(n1, [v2]);
    assert Feasible(s, [v1, v2]);
    RunCons(n1, v2, []);
    RunCons(s, v1, [v2]);
  }

  /** The worked example: fee 10, two tickets, duration 100. Two purchases with
      15 and 10 XRD give change 5 and 0; a third purchase is sold out; a claim
      without the admin badge fails and one with it hands out 20 XRD. */
  lemma SoldOutScenario(currentEpoch: U64, serviceAuth: ResourceAddress, eventAdmin: ResourceAddress, ticket: ResourceAddress)
    requires currentEpoch + 100 < U64_LIMIT
    requires DistinctResources(serviceAuth, eventAdmin, ticket)
    ensures var s := Create(10 * ONE, 2 * ONE, 100, currentEpoch, serviceAuth, eventAdmin, ticket).0;
      var calls := [Pay(Bucket(RADIX_TOKEN, 15 * ONE)), Pay(Bucket(RADIX_TOKEN, 10 * ONE)),
                    Pay(Bucket(RADIX_TOKEN, 10 * ONE)), Claim({}), Claim({eventAdmin})];
      && Feasible(s, calls)
      && Run(s, calls).1 == [
           Ok(Purchase(Bucket(RADIX_TOKEN, 5 * ONE), Bucket(ticket, ONE))),
           Ok(Purchase(Bucket(RADIX_TOKEN, 0), Bucket(ticket, ONE))),
           Err(SoldOut), Err(Unauthorized),
           Ok(Earnings(Bucket(RADIX_TOKEN, 20 * ONE)))]
      && Run(s, calls).0.paymentVault.amount == 0
      && Run(s, calls).0.ticketVault.amount == 0
  {
    var s0 := Create(10 * ONE, 2 * ONE, 100, currentEpoch, serviceAuth, eventAdmin, ticket).0;
    var c0, c1, c2, c3, c4 := Pay(Bucket(RADIX_TOKEN, 15 * ONE)), Pay(Bucket(RADIX_TOKEN, 10 * ONE)),
                              Pay(Bucket(RADIX_TOKEN, 10 * ONE)), Claim({}), Claim({eventAdmin});
    var s1 := Next(s0, c0);
    assert Outcome(s0, c0) == Ok(Purchase(Bucket(RADIX_TOKEN, 5 * ONE), Bucket(ticket, ONE)));
    assert s1 == s0.(paymentVault := Vault(RADIX_TOKEN, 10 * ONE), ticketVault := Vault(ticket, ONE), heldOutside := ONE);
    var s2 := Next(s1, c1);
    assert Outcome(s1, c1) == Ok(Purchase(Bucket(RADIX_TOKEN, 0), Bucket(ticket, ONE)));
    assert s2 == s1.(paymentVault := Vault(RADIX_TOKEN, 20 * ONE), ticketVault := Vault(ticket, 0), heldOutside := 2 * ONE);
    assert Outcome(s2, c2) == Err(SoldOut) && Next(s2, c2) == s2;
    assert Outcome(s2, c3) == Err(Unauthorized) && Next(s2, c3) == s2;
    var s5 := Next(s2, c4);
    assert Outcome(s2, c4) == Ok(Earnings(Bucket(RADIX_TOKEN, 20 * ONE)));
    assert s5 == s2.(paymentVault := Vault(RADIX_TOKEN, 0));
    assert [c4] == [c4] + [];
    assert [c3, c4] == [c3] + [c4];
    assert [c2, c3, c4] == [c2] + [c3, c4];
    assert [c1, c2, c3, c4] == [c1] + [c2, c3, c4];
    assert [c0, c1, c2, c3, c4] == [c0] + [c1, c2, c3, c4];
    assert Feasible(s5, []);
    assert Feasible(s2, [c4]);
    assert Feasible(s2, [c3, c4]);
    assert Feasible(s2, [c2, c3, c4]);
    assert Feasible(s1, [c1, c2, c3, c4]);
    assert Feasible(s0, [c0, c1, c2, c3, c4]);
    RunCons(s2, c4, []);
    RunCons(s2, c3, [c4]);
    RunCons(s2, c2, [c3, c4]);
    RunCons(s1, c1, [c2, c3, c4]);
    RunCons(s0, c0, [c1, c2, c3, c4]);
  }
}
