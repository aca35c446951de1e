# EventService: a verified model of a single-event ticketing escrow

The `EventService` blueprint (a Scrypto component on the Radix ledger) sells a
fixed supply of fungible ticket tokens for a fixed XRD fee. It keeps the fees
in a payment vault and the unsold tickets in a ticket vault. Only a holder of
the admin badge may withdraw the fees. Once the event's end epoch has passed,
presented tickets are burned, and burning is authorised by a service badge that
never leaves the component.

The model has four modules:

- `Resources` (resources.dfy): resource addresses, Decimal amounts, buckets,
  vaults, and the bucket and vault operations the blueprint calls (`take`,
  `put`, `take_all`, `Vault::new`, `Vault::with_bucket`). It also has the
  errors with which a call can abort.
- `EventSpec` (event_spec.dfy): the blueprint as a state machine on values.
  It contains the component state, the invariant `Valid`, `Create`, the three
  methods, the access rules installed by `create`, and `Step`, which runs one
  call through the access check and into its method. `Next` is the state after
  one call; a failed call is rolled back.
- `EventRuns` (event_runs.dfy): `Run`, which executes any sequence of calls,
  and the lemmas that hold across every sequence. These cover supply
  conservation, the immutable fields, the ticket vault that only loses tickets
  (one per purchase), fee accounting, and burns that are never undone.
- `Blueprint` (blueprint.dfy): the component as a class. The vaults are fields
  that `ClaimEventEarnings` and `PayForTicket` update in place. The fee, end
  epoch, admin badge address and service badge are `const`, because no method
  writes them. Each method is proved against the matching `EventSpec` function
  applied to `old(Model())`.

Modelling choices:

- Every Decimal amount is a natural number of units of 10^-18, because Scrypto's
  Decimal has eighteen fractional digits. `Resources.ONE` is the Decimal 1. So
  `ticket_vault.take(1)` takes `ONE` units, and a fractional `num_of_tickets` or
  a fractional ticket bucket can be represented.
- The ledger keeps ticket bookkeeping implicitly; the model keeps it as ghost
  state: the supply minted (`numOfTickets`), the tickets in callers' custody
  (`heldOutside`) and the tickets burned (`burned`). Buckets cannot be forged.
  So a ticket bucket presented to `verify_ticket` holds at most `heldOutside`
  (`EventSpec.CanPresent`).
- The admin credential is a possession check. A caller attaches the set of
  resources it holds proofs of, and `claim_event_earnings` runs only when the
  admin badge's address is in that set. The other methods allow every caller.
- Each call is one transaction. An `assert!` panic, or a failing `take`, aborts
  the call with an `Error` and leaves the state as it was. In `PayForTicket`
  the class puts the fee into the payment vault before it takes the ticket, as
  the source does. If the take fails, it restores the vault explicitly.
- Where the code is looser than its names and comments suggest, the model
  follows the code:
  - `event_duration` may be 0, because the code does not check that it is
    positive.
  - The error names `SoldOut`, `WrongCurrency` and `InsufficientPayment` stand
    for the panic of `take(1)` and the two `assert!` messages.
  - Before the end epoch, `verify_ticket` returns whatever bucket it is given,
    whether or not it holds tickets. `EventSpec.VerifyTicket` states this for
    every bucket. After the end epoch, a bucket of another resource cannot be
    burned with the service badge, and the call aborts (`BurnNotAuthorized`).

## Model

| member | source | states |
|---|---|---|
| `Resources.BucketTake` | src/lib.rs:80 | `payment.take(fee)` succeeds exactly when the bucket holds at least `fee`; the two parts keep the resource and add up to the original amount |
| `Resources.VaultPut` | src/lib.rs:82 | depositing a bucket of the vault's resource raises the balance by exactly the bucket's amount |
| `Resources.VaultTake` | src/lib.rs:84 | `ticket_vault.take(1)` succeeds exactly when the vault holds at least one ticket; it yields a bucket of exactly that amount and lowers the balance by it |
| `Resources.NewVault` | src/lib.rs:51 | `Vault::new(RADIX_TOKEN)` is an empty vault of exactly that resource |
| `Resources.VaultWithBucket` | src/lib.rs:52 | `Vault::with_bucket` takes custody of the whole bucket: same resource, same amount (also the service badge vault, line 56) |
| `Resources.VaultTakeAll` | src/lib.rs:67 | `take_all` never fails, returns the whole balance and leaves an empty vault of the same resource |
| `EventSpec.Create` | src/lib.rs:14-63 | after `create` the ticket vault holds exactly `num_of_tickets`, the payment vault is an empty XRD vault, `event_end == current_epoch + event_duration`, the caller receives one admin badge, the service badge vault holds one unit of the service badge resource, and the invariant holds |
| `EventSpec.ClaimEventEarnings` | src/lib.rs:66-68 | hands out the whole payment balance in XRD and leaves the vault at zero, with every other field unchanged |
| `EventSpec.PayForTicket` | src/lib.rs:73-85 | fails exactly when the currency is not XRD (`WrongCurrency`), the amount is below the fee (`InsufficientPayment`) or the vault has less than one ticket (`SoldOut`), in that order; on success the vault grows by exactly the fee, change plus fee equals the payment, exactly one ticket leaves the vault, both vaults keep their resources, and the new state is given in full |
| `EventSpec.VerifyTicket` | src/lib.rs:90-99 | up to and including `event_end` returns the presented bucket unchanged and the state unchanged; after it burns a ticket bucket and returns `None`, and fails for a non-ticket bucket, because only the ticket's burn rule is met by the service badge (`BurnableWithServiceBadge`, lines 34-35 and 92-93); the vaults never change |
| `EventSpec.Step` | src/lib.rs:43-48 | runs the access rules of `create` (`AccessAllowed`) before the method: a call fails with `Unauthorized` exactly when it is `claim_event_earnings` without a proof of the admin badge; a successful call keeps the invariant, fee, end epoch, admin badge, service badge and ticket resource |
| `EventSpec.Next` | src/lib.rs:80-84 | a failed call leaves the whole state as it was; every reachable state satisfies the invariant |
| `EventRuns.Run` | src/lib.rs:66-99 | any sequence of calls yields one outcome per call and ends in a state satisfying the invariant |
| `EventRuns.StepBalances` | src/lib.rs:66-84 | one call takes exactly one ticket out of the vault and puts exactly the fee in when it is a successful purchase, and moves neither otherwise; what else leaves the payment vault is what a successful claim hands out |
| `EventRuns.RunKeepsImmutables` | src/lib.rs:50-57 | across any sequence of calls `ticket_fee`, `event_end`, the admin badge address, the service badge, the ticket resource and the vault currency never change |
| `EventRuns.RunConservesSupply` | src/lib.rs:31-38 | after `create` and any sequence of calls, tickets in the vault plus tickets held outside plus tickets burned equal `num_of_tickets` |
| `EventRuns.RunConservesTickets` | src/lib.rs:84 | across any sequence of calls the ticket vault loses exactly one ticket per successful purchase and is never refilled, so purchases never outnumber the whole tickets it held at the start |
| `EventRuns.RunConservesEarnings` | src/lib.rs:66-84 | across any sequence of calls, final balance plus everything claimed equals initial balance plus fee times the number of purchases |
| `EventRuns.RunBurnsAreFinal` | src/lib.rs:90-95 | the number of burned tickets never decreases |
| `EventRuns.ClaimTwiceYieldsNothing` | src/lib.rs:66-68 | a second authorised claim with no purchase in between succeeds and returns an empty XRD bucket |
| `EventRuns.UnauthorizedClaimChangesNothing` | src/lib.rs:43-48 | without the admin badge a claim fails with `Unauthorized` for every balance, including zero, and changes nothing |
| `EventRuns.OpenMethodsNeedNoProof` | src/lib.rs:48 | `pay_for_ticket` and `verify_ticket` never fail with `Unauthorized` |
| `EventRuns.ExpiredTicketsBurnIndependently` | src/lib.rs:91-95 | two ticket buckets presented after the end epoch are both burned, each by its own amount |
| `EventRuns.SoldOutScenario` | src/lib.rs:73-85 | fee 10 and two tickets: paying 15 and then 10 gives change 5 and 0, a third purchase is sold out, a claim without the badge fails, and a claim with it returns 20 |
| `Blueprint.EventService.constructor` | src/lib.rs:50-57 | the struct literal: an empty XRD vault, the ticket bucket and the service badge in vaults of their own, and the fee, end epoch and admin address as given |
| `Blueprint.EventService.Create` | src/lib.rs:14-63 | allocates a fresh component whose state and returned admin badge are those of `EventSpec.Create` |
| `Blueprint.EventService.ClaimEventEarnings` | src/lib.rs:66-68 | succeeds exactly when the admin badge is proved; then it returns the old balance in XRD and leaves the vault at zero; otherwise nothing changes; it agrees with `EventSpec.Step` |
| `Blueprint.EventService.PayForTicket` | src/lib.rs:73-85 | updates the vaults in place as `EventSpec.PayForTicket` says; on success the fee is added, one ticket is removed and change plus fee equals the payment; on failure the fee deposit is rolled back and no field changes |
| `Blueprint.EventService.VerifyTicket` | src/lib.rs:90-99 | changes no vault, fee or epoch; returns the bucket up to `event_end` and burns a ticket bucket after it, agreeing with `EventSpec.VerifyTicket` |

## Left out

- Resource metadata (`name`, `symbol`) and the `ResourceBuilder` fluent API. They are platform plumbing with no behaviour of the component.
- `instantiate`, `add_access_check` and `globalize`. These register the component on the ledger. `Blueprint.EventService.Create` returns the object and not a component address. `EventSpec.Step` is the access rule that `add_access_check` installs.
- Resource address allocation. The three fresh addresses are parameters, and the ledger's guarantee that they are distinct from each other and from XRD is a precondition.
- `Runtime::current_epoch()`. The epoch is a parameter of `Create` and `VerifyTicket`.
- Decimal internals. Negative Decimal values are excluded by the `nat` type of amounts, so `ticket_fee >= 0` and `num_of_tickets >= 0` hold by construction. The i128 range of Decimal is not modelled, so the model treats XRD balances as unbounded.
- Divisibility. Every resource is taken to have Scrypto's default divisibility of 18, so any amount of units can be split off.
- Transaction rollback and cross-caller serialisation. Each call is one atomic step that commits all of its effects or none of them.
- The `u64` addition `current_epoch + event_duration` carries a no-overflow precondition. Wrap-around and the overflow panic are not modelled.
- The proof amount behind `require(event_admin)`. The rule is modelled as the badge's address being in the caller's set of proofs, whatever amount of the badge is proved.
- A bucket of a foreign resource whose burn rule allows anyone. After the end epoch, every non-ticket bucket is modelled as unburnable with the service badge.
- The XRD and admin badges held by callers are not tracked. Only ticket custody is tracked.
