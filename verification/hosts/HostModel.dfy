/** The host table, its idempotency keys and the settings that bound leases and counts. */
module HostModel {
  import opened Wrappers

  type Time = int
  type Pos = n: int | n > 0 witness 1
  type HostId = nat
  type Pid = nat
  type Name = string
  type Provider = string
  type Account = string
  type Key = string

  const ADMIN: Account := "admin"

  datatype Status = Provisioning | CreatingNetwork | CreatingVm | Bootstrapping | Active | Error

  const DELETE_BLOCKED_STATUSES: set<Status> := {Provisioning, CreatingNetwork, CreatingVm}
  const VM_BACKED_STATUSES: set<Status> := {Bootstrapping, Active, Error}
  const RENEWABLE_STATUSES: set<Status> := {Bootstrapping, Active}

  /** What a caller asks for: no end, a given end, or the default term. */
  datatype Lease = DefaultTerm | Until(end: Time) | Permanent

  /** Which statement last wrote a row's lease. */
  datatype LeaseWriter = Initial | Stamp | Renewal | Claim | PoolReturn | Failure | LoserExpiry

  /** A row of the hosts table. `writer` and `permanent` are history: the table has no such columns.
      `permanent` says that the last creation or claim of the row asked for a lease without end. */
  datatype Row = Row(
    name: Name,
    provider: Provider,
    account: Option<Account>,
    status: Status,
    createdAt: Time,
    expiresAt: Option<Time>,
    claimedAt: Option<Time>,
    poolMember: bool,
    hasDevice: bool,
    writer: LeaseWriter,
    permanent: bool
  )

  datatype KeyRecord = KeyRecord(host: HostId, expiresAt: Time)

  datatype Vm = Vm(provider: Provider, name: Name)

  datatype Config = Config(
    leaseTtl: Pos,
    grace: Pos,
    poolMaxAge: Pos,
    keyTtl: Pos,
    hostLimits: map<Provider, nat>,
    accountLimit: Option<Pos>,
    maxLifetime: map<Provider, Pos>,
    tailnet: set<Provider>,
    tailscale: bool,
    targets: map<Provider, Pos>,
    createsPerTick: nat
  )

  function Min(x: Time, y: Time): Time { if x <= y then x else y }

  function Max(x: Time, y: Time): Time { if x >= y then x else y }

  /** VMProvider.lease_end: a provider with a maximum lifetime cuts every lease to it. */
  function LeaseEnd(c: Config, provider: Provider, createdAt: Time, expiresAt: Option<Time>): Option<Time> {
    if provider in c.maxLifetime then
      var stop := createdAt + c.maxLifetime[provider];
      if expiresAt.Some? then Some(Min(expiresAt.value, stop)) else Some(stop)
    else
      expiresAt
  }

  /** The end a lease asks for, read at `now`. */
  function Requested(c: Config, lease: Lease, now: Time): Option<Time> {
    match lease
    case Permanent => None
    case Until(end) => Some(end)
    case DefaultTerm => Some(now + c.leaseTtl)
  }

  /** Where a lease ends that was asked to end at `asked`: there, or where the provider stops its VM, whichever is first;
      without either it has no end. */
  predicate EndsAsAsked(c: Config, provider: Provider, createdAt: Time, asked: Option<Time>, end: Option<Time>) {
    if provider !in c.maxLifetime then end == asked
    else
      var stop := createdAt + c.maxLifetime[provider];
      && end.Some? && end.value <= stop
      && (asked.None? ==> end.value == stop)
      && (asked.Some? ==> end.value <= asked.value && (end == asked || end.value == stop))
  }

  /** The end that a request gets for its lease, as it reads the clock. */
  predicate EndsAsRequested(c: Config, provider: Provider, createdAt: Time, lease: Lease, now: Time, end: Option<Time>) {
    && (lease.Permanent? ==> EndsAsAsked(c, provider, createdAt, None, end))
    && (lease.Until? ==> EndsAsAsked(c, provider, createdAt, Some(lease.end), end))
    && (lease.DefaultTerm? ==> EndsAsAsked(c, provider, createdAt, Some(now + c.leaseTtl), end))
  }

  lemma LeaseEndIsAsRequested(c: Config, provider: Provider, createdAt: Time, lease: Lease, now: Time)
    ensures EndsAsRequested(c, provider, createdAt, lease, now, LeaseEnd(c, provider, createdAt, Requested(c, lease, now)))
  {
  }

  /** The safety term a row carries while its host is provisioned. */
  function InitialEnd(c: Config, lease: Lease, now: Time): Time {
    if lease.Until? then Max(lease.end, now + c.grace) else now + c.grace
  }

  predicate Unexpired(row: Row, now: Time) {
    row.expiresAt.None? || row.expiresAt.value > now
  }

  /** A live host counts against the limits. */
  predicate Live(row: Row, now: Time) {
    row.status != Error && Unexpired(row, now)
  }

  /** A live pool member that no caller has claimed. */
  predicate Warm(row: Row, now: Time) {
    row.poolMember && row.claimedAt.None? && Live(row, now)
  }

  /** The lease of the row ends no later than the provider stops its VM. */
  predicate WithinLifetime(c: Config, row: Row) {
    row.provider in c.maxLifetime ==>
      row.expiresAt.Some? && row.expiresAt.value <= row.createdAt + c.maxLifetime[row.provider]
  }
}
