/** Ledger resources as the event service sees them: resource addresses,
    Decimal amounts, buckets (transient containers handed between callers)
    and vaults (containers owned by a component), with the few bucket and
    vault operations the blueprint uses. */
module Resources {

  /** A resource address is an opaque identifier allocated by the ledger. */
  type ResourceAddress = nat

  /** The address of XRD, the ledger's native currency. */
  const RADIX_TOKEN: ResourceAddress := 0

  /** A Decimal amount, counted in units of 10^-18: Scrypto's Decimal has
      eighteen fractional digits and a bucket never holds a negative amount. */
  type Amount = nat

  /** The Decimal value 1. */
  const ONE: Amount := 1_000_000_000_000_000_000

  /** Epochs and durations are u64. */
  const U64_LIMIT: int := 0x1_0000_0000_0000_0000
  type U64 = x: int | 0 <= x < U64_LIMIT

  datatype Option<T> = None | Some(value: T)

  /** Every way a call on the component can abort. */
  datatype Error =
    | WrongCurrency       // "XRD Payment Required"
    | InsufficientPayment // "Insufficient Balance"
    | SoldOut             // the ticket vault holds less than one ticket
    | Unauthorized        // the access rule of the method is not met
    | BurnNotAuthorized   // the presented bucket is not burnable with the service badge

  datatype Result<T> = Ok(value: T) | Err(error: Error)

  datatype Bucket = Bucket(resource: ResourceAddress, amount: Amount)

  datatype Vault = Vault(resource: ResourceAddress, amount: Amount)

  /** Vault::new: an empty vault for one resource. */
  function NewVault(resource: ResourceAddress): (v: Vault)
    ensures v.amount == 0 && v.resource == resource
  {
    Vault(resource, 0)
  }

  /** Vault::with_bucket: a vault that takes custody of a whole bucket. */
  function VaultWithBucket(b: Bucket): (v: Vault)
    ensures v.resource == b.resource && v.amount == b.amount
  {
    Vault(b.resource, b.amount)
  }

  /** Bucket::take: splits `amount` off a bucket, giving (what is left,
      what was taken); aborts when the bucket holds less than `amount`. */
  function BucketTake(b: Bucket, amount: Amount): (r: Option<(Bucket, Bucket)>)
    ensures r.Some? <==> amount <= b.amount
    ensures r.Some? ==> r.value.0.resource == b.resource && r.value.1.resource == b.resource
    ensures r.Some? ==> r.value.1.amount == amount && r.value.0.amount + r.value.1.amount == b.amount
  {
    if amount <= b.amount then Some((Bucket(b.resource, b.amount - amount), Bucket(b.resource, amount)))
    else None
  }

  /** Vault::put: deposits a whole bucket of the vault's own resource. */
  function VaultPut(v: Vault, b: Bucket): (r: Vault)
    requires b.resource == v.resource
    ensures r.resource == v.resource && r.amount == v.amount + b.amount
  {
    Vault(v.resource, v.amount + b.amount)
  }

  /** Vault::take: withdraws `amount` into a new bucket; aborts when the
      vault holds less. */
  function VaultTake(v: Vault, amount: Amount): (r: Option<(Vault, Bucket)>)
    ensures r.Some? <==> amount <= v.amount
    ensures r.Some? ==> r.value.0.resource == v.resource && r.value.1 == Bucket(v.resource, amount)
    ensures r.Some? ==> r.value.0.amount + amount == v.amount
  {
    if amount <= v.amount then Some((Vault(v.resource, v.amount - amount), Bucket(v.resource, amount)))
    else None
  }

  /** Vault::take_all: withdraws everything; never aborts, even on an empty vault. */
  function VaultTakeAll(v: Vault): (r: (Vault, Bucket))
    ensures r.0 == NewVault(v.resource)
    ensures r.1.resource == v.resource && r.1.amount == v.amount
  {
    (Vault(v.resource, 0), Bucket(v.resource, v.amount))
  }

  /** Taking back what was just put returns the vault to where it was. */
  lemma TakeUndoesPut(v: Vault, b: Bucket)
    requires b.resource == v.resource
    ensures VaultTake(VaultPut(v, b), b.amount) == Some((v, b))
  {
  }

  /** Putting back everything taken out restores the vault's balance. */
  lemma PutUndoesTakeAll(v: Vault)
    ensures VaultPut(VaultTakeAll(v).0, VaultTakeAll(v).1) == v
  {
  }
}
