/**
 The host service as a step system. Every step is one database transaction, or one call to a provider, of one
 process; between any two steps of a process all others may run. A process that stops leaves the process table,
 and with it go its locks, which are read off the program counters:
   - a deleter that has its row FOR UPDATE keeps it until its next commit;
   - a creator keeps an advisory lock until the commit that ends the transaction of its count.
 */
module HostProtocol {
  import opened Wrappers
  import opened HostModel

  datatype Request = Request(
    account: Option<Account>,
    key: Option<Key>,
    lease: Lease,
    provider: Provider,
    customized: bool,
    tick: Option<nat>        // the pool tick that creates the host, if one does
  )

  /** What create_host holds in memory about the row it inserts. */
  datatype Draft = Draft(id: HostId, name: Name, createdAt: Time, initial: Time)

  /** The next step of provision(), then the lease stamp. */
  datatype Phase =
    | CommitNetwork
    | CommitVm
    | CallProvider
    | CommitBootstrapping
    | WaitDevice
    | CommitActive
    | MarkFailed(failedAt: Time)
    | StampLease

  /** The next step of a request. `locked` says whether its transaction holds the lock of its account. */
  datatype Pc =
    | LookupKey(lost: Option<HostId>)
    | ReadKeyHost(record: KeyRecord, lost: Option<HostId>)
    | DropStaleKey(lost: Option<HostId>)
    | CountAccount
    | PickWarm(locked: bool)
    | ClaimWarm(id: HostId, at: Time, createdAt: Time, locked: bool)
    | MintHost(locked: bool)
    | CountProvider(draft: Draft, locked: bool)
    | InsertRow(draft: Draft, locked: bool, limited: bool)
    | Provision(draft: Draft, phase: Phase)
    | RecordKey(own: HostId)
    | ReadLoser(own: HostId)
    | WriteLoser(own: HostId, wasClaimed: bool, now: Time)
    | Returned(host: HostId, held: bool)
    | Failed

  /** The API deletes, the pool maintainer sheds, the janitor reaps: the flag combinations of delete_host in use. */
  datatype Mode = Api | Shed | Reap

  datatype Target = Target(id: HostId, provider: Provider, name: Name, mode: Mode)

  datatype Stage =
    | LockHost(id: HostId, mode: Mode)
    | ReleaseDevice(target: Target)
    | DeleteVm(target: Target, locked: bool)
    | DeleteRow(target: Target, locked: bool)
    | Done(deleted: bool)

  datatype Proc =
    | Creator(req: Request, pc: Pc)
    | Deleter(stage: Stage)

  /** A tick of the pool maintainer: what it may still create, what it has listed to shed, and its reading of the clock. */
  datatype Tick = Idle | Running(batch: multiset<Provider>, excess: set<HostId>, at: Time)

  datatype State = State(
    now: Time,
    rows: map<HostId, Row>,
    keys: map<Key, KeyRecord>,
    vms: set<Vm>,
    used: set<HostId>,     // every uuid ever drawn
    past: set<HostId>,     // every id that ever had a row
    procs: map<Pid, Proc>,
    ticks: seq<Tick>
  )

  // ---- Locks ----

  /** The row this process holds FOR UPDATE. */
  function RowLock(proc: Proc): Option<HostId> {
    if proc.Deleter?
       && (proc.stage.ReleaseDevice? || ((proc.stage.DeleteVm? || proc.stage.DeleteRow?) && proc.stage.locked))
    then Some(proc.stage.target.id)
    else None
  }

  predicate HasLocked(pc: Pc) {
    pc.PickWarm? || pc.ClaimWarm? || pc.MintHost? || pc.CountProvider? || pc.InsertRow?
  }

  function AccountLock(proc: Proc): Option<Account> {
    if proc.Creator? && HasLocked(proc.pc) && proc.pc.locked then proc.req.account else None
  }

  function ProviderLock(proc: Proc): Option<Provider> {
    if proc.Creator? && proc.pc.InsertRow? && proc.pc.limited then Some(proc.req.provider) else None
  }

  predicate RowFree(s: State, id: HostId) {
    forall q :: q in s.procs ==> RowLock(s.procs[q]) != Some(id)
  }

  predicate RowFreeFor(s: State, id: HostId, p: Pid) {
    forall q :: q in s.procs && q != p ==> RowLock(s.procs[q]) != Some(id)
  }

  predicate AccountFree(s: State, a: Account) {
    forall q :: q in s.procs ==> AccountLock(s.procs[q]) != Some(a)
  }

  predicate ProviderFree(s: State, provider: Provider) {
    forall q :: q in s.procs ==> ProviderLock(s.procs[q]) != Some(provider)
  }

  // ---- Counts ----

  function LiveOfProvider(s: State, provider: Provider): set<HostId> {
    set id | id in s.rows && s.rows[id].provider == provider && Live(s.rows[id], s.now)
  }

  function LiveOfAccount(s: State, a: Account): set<HostId> {
    set id | id in s.rows && s.rows[id].account == Some(a) && Live(s.rows[id], s.now)
  }

  function WarmOfProvider(s: State, provider: Provider, at: Time): set<HostId> {
    set id | id in s.rows && s.rows[id].provider == provider && Warm(s.rows[id], at)
  }

  // ---- Effects ----

  datatype RowChange = KeepRows | PutRow(id: HostId, row: Row) | DropRow(gone: HostId)
  datatype KeyChange = KeepKeys | PutKey(key: Key, record: KeyRecord) | DropKey(stale: Key)
  datatype VmChange = KeepVms | AddVm(vm: Vm) | DropVm(lost: Vm)
  datatype ProcChange = KeepProcs | SetProc(p: Pid, proc: Proc) | EndProc(stopped: Pid)
  datatype TickChange = KeepTicks | SetTick(slot: nat, tick: Tick)

  datatype Effect = Effect(
    proc: ProcChange,
    row: RowChange,
    key: KeyChange,
    vm: VmChange,
    minted: set<HostId>,
    tick: TickChange,
    clock: Option<Time>
  )

  function Quiet(proc: ProcChange): Effect {
    Effect(proc, KeepRows, KeepKeys, KeepVms, {}, KeepTicks, None)
  }

  function PutRows(rows: map<HostId, Row>, change: RowChange): map<HostId, Row> {
    match change
    case KeepRows => rows
    case PutRow(id, row) => rows[id := row]
    case DropRow(id) => rows - {id}
  }

  /** A deleted host takes its keys with it. */
  function PutKeys(keys: map<Key, KeyRecord>, change: KeyChange, rows: RowChange): map<Key, KeyRecord> {
    match change
    case PutKey(k, record) => keys[k := record]
    case DropKey(k) => keys - {k}
    case KeepKeys =>
      if rows.DropRow? then map k | k in keys && keys[k].host != rows.gone :: keys[k] else keys
  }

  function PutProcs(procs: map<Pid, Proc>, change: ProcChange): map<Pid, Proc> {
    match change
    case KeepProcs => procs
    case SetProc(p, proc) => procs[p := proc]
    case EndProc(p) => procs - {p}
  }

  function Commit(s: State, e: Effect): State {
    State(
      if e.clock.Some? then e.clock.value else s.now,
      PutRows(s.rows, e.row),
      PutKeys(s.keys, e.key, e.row),
      match e.vm case KeepVms => s.vms case AddVm(vm) => s.vms + {vm} case DropVm(vm) => s.vms - {vm},
      s.used + e.minted,
      if e.row.PutRow? then s.past + {e.row.id} else s.past,
      PutProcs(s.procs, e.proc),
      if e.tick.SetTick? && e.tick.slot < |s.ticks| then s.ticks[e.tick.slot := e.tick.tick] else s.ticks
    )
  }

  // ---- Steps of a request ----

  /** What the world decides in a step: a warm candidate, a fresh uuid, the outcome of a call. */
  datatype Choice =
    | Plain
    | Candidate(picked: Option<HostId>)
    | Fresh(id: HostId, name: Name)
    | Fails
    | FailsWithVm

  predicate IsCandidate(c: Config, req: Request, row: Row, now: Time) {
    && row.provider == req.provider
    && row.poolMember
    && row.claimedAt.None?
    && row.status == Active
    && Unexpired(row, now)
    && (req.provider in c.maxLifetime && req.lease.Until? ==>
          row.createdAt >= req.lease.end - c.maxLifetime[req.provider])
  }

  predicate IsOldestCandidate(c: Config, s: State, req: Request, picked: Option<HostId>) {
    match picked
    case None =>
      forall id :: id in s.rows ==> !IsCandidate(c, req, s.rows[id], s.now)
    case Some(best) =>
      && best in s.rows
      && IsCandidate(c, req, s.rows[best], s.now)
      && forall id :: id in s.rows && IsCandidate(c, req, s.rows[id], s.now) ==>
           s.rows[best].createdAt <= s.rows[id].createdAt
  }

  /** After a host is in hand: record the key, or answer. */
  function Settle(req: Request, own: HostId): Pc {
    if req.key.Some? then RecordKey(own) else Returned(own, true)
  }

  function AfterCount(c: Config, req: Request, locked: bool): Pc {
    if req.tick.None? && !req.customized && req.provider in c.targets then PickWarm(locked) else MintHost(locked)
  }

  function AfterLookup(lost: Option<HostId>): Pc {
    if lost.None? then CountAccount else Failed
  }

  function NewRow(req: Request, d: Draft): Row {
    Row(d.name, req.provider, req.account, Provisioning, d.createdAt, Some(d.initial), None, req.tick.Some?, false,
        Initial, req.lease.Permanent?)
  }

  function ClaimedRow(c: Config, req: Request, row: Row, at: Time, createdAt: Time, now: Time): Row {
    row.(account := req.account, claimedAt := Some(at),
         expiresAt := LeaseEnd(c, req.provider, createdAt, Requested(c, req.lease, now)),
         writer := Claim, permanent := req.lease.Permanent?)
  }

  function StampedRow(c: Config, req: Request, row: Row, d: Draft, now: Time): Row {
    row.(expiresAt := LeaseEnd(c, req.provider, d.createdAt, Requested(c, req.lease, now)), writer := Stamp)
  }

  function ReleasedRow(c: Config, row: Row, wasClaimed: bool, now: Time): Row {
    if wasClaimed then
      row.(claimedAt := None, account := None,
           expiresAt := LeaseEnd(c, row.provider, row.createdAt, Some(now + c.poolMaxAge)),
           writer := PoolReturn, permanent := false)
    else
      row.(expiresAt := Some(now), writer := LoserExpiry)
  }

  /** An ORM commit of the creator's row: it waits for a row lock and dies when the row is gone. */
  function CreatorCommit(s: State, p: Pid, req: Request, id: HostId, row: Row, next: Pc): Option<Effect> {
    if id !in s.rows then
      Some(Quiet(SetProc(p, Creator(req, Failed))))
    else if !RowFreeFor(s, id, p) then
      None
    else
      Some(Quiet(SetProc(p, Creator(req, next))).(row := PutRow(id, row)))
  }

  function FindKey(s: State, p: Pid, req: Request, lost: Option<HostId>): Option<Effect> {
    var next :=
      if req.key.None? then AfterLookup(lost)
      else if req.key.value in s.keys then ReadKeyHost(s.keys[req.key.value], lost)
      else AfterLookup(lost);
    Some(Quiet(SetProc(p, Creator(req, next))))
  }

  function FindKeyHost(s: State, p: Pid, req: Request, record: KeyRecord, lost: Option<HostId>): Option<Effect> {
    var next :=
      if record.expiresAt > s.now && record.host in s.rows then
        if s.rows[record.host].account == req.account then Returned(record.host, false) else Failed
      else DropStaleKey(lost);
    Some(Quiet(SetProc(p, Creator(req, next))))
  }

  function CollectKey(p: Pid, req: Request, lost: Option<HostId>): Option<Effect> {
    if req.key.None? then None
    else Some(Quiet(SetProc(p, Creator(req, AfterLookup(lost)))).(key := DropKey(req.key.value)))
  }

  predicate AccountLimited(c: Config, req: Request) {
    c.accountLimit.Some? && req.tick.None? && req.account.Some? && req.account.value != ADMIN
  }

  function CheckAccount(c: Config, s: State, p: Pid, req: Request): Option<Effect> {
    if !AccountLimited(c, req) then
      Some(Quiet(SetProc(p, Creator(req, AfterCount(c, req, false)))))
    else if !AccountFree(s, req.account.value) then
      None
    else if |LiveOfAccount(s, req.account.value)| >= c.accountLimit.value then
      Some(Quiet(SetProc(p, Creator(req, Failed))))
    else
      Some(Quiet(SetProc(p, Creator(req, AfterCount(c, req, true)))))
  }

  function SelectWarm(c: Config, s: State, p: Pid, req: Request, locked: bool, choice: Choice): Option<Effect> {
    if !choice.Candidate? || !IsOldestCandidate(c, s, req, choice.picked) then
      None
    else if choice.picked.None? then
      Some(Quiet(SetProc(p, Creator(req, MintHost(locked)))))
    else
      var id := choice.picked.value;
      Some(Quiet(SetProc(p, Creator(req, ClaimWarm(id, s.now, s.rows[id].createdAt, locked)))))
  }

  /** The conditional update and its commit. A lost claim commits too, and with that drops the account lock. */
  function UpdateWarm(c: Config, s: State, p: Pid, req: Request, id: HostId, at: Time, createdAt: Time): Option<Effect> {
    if id !in s.rows || s.rows[id].claimedAt.Some? then
      Some(Quiet(SetProc(p, Creator(req, MintHost(false)))))
    else if !RowFreeFor(s, id, p) then
      None
    else
      Some(Quiet(SetProc(p, Creator(req, Settle(req, id)))).(
        row := PutRow(id, ClaimedRow(c, req, s.rows[id], at, createdAt, s.now))))
  }

  function DraftHost(c: Config, s: State, p: Pid, req: Request, locked: bool, choice: Choice): Option<Effect> {
    match choice
    case Fails => Some(Quiet(SetProc(p, Creator(req, Failed))))
    case Fresh(id, name) =>
      if id in s.used then None
      else
        var d := Draft(id, name, s.now, InitialEnd(c, req.lease, s.now));
        Some(Quiet(SetProc(p, Creator(req, CountProvider(d, locked)))).(minted := {id}))
    case _ => None
  }

  function CheckProvider(c: Config, s: State, p: Pid, req: Request, d: Draft, locked: bool): Option<Effect> {
    if req.provider !in c.hostLimits then
      Some(Quiet(SetProc(p, Creator(req, InsertRow(d, locked, false)))))
    else if !ProviderFree(s, req.provider) then
      None
    else if |LiveOfProvider(s, req.provider)| >= c.hostLimits[req.provider] then
      Some(Quiet(SetProc(p, Creator(req, Failed))))
    else
      Some(Quiet(SetProc(p, Creator(req, InsertRow(d, locked, true)))))
  }

  /** The insert. The name is unique; a pool create spends one slot of the batch of its tick. */
  function AddHost(s: State, p: Pid, req: Request, d: Draft): Option<Effect> {
    if exists id :: id in s.rows && s.rows[id].name == d.name then
      Some(Quiet(SetProc(p, Creator(req, Failed))))
    else
      var e := Quiet(SetProc(p, Creator(req, Provision(d, CommitNetwork)))).(row := PutRow(d.id, NewRow(req, d)));
      if req.tick.None? then
        Some(e)
      else if req.tick.value < |s.ticks| && s.ticks[req.tick.value].Running?
              && req.provider in s.ticks[req.tick.value].batch then
        var tick := s.ticks[req.tick.value];
        Some(e.(tick := SetTick(req.tick.value, tick.(batch := tick.batch - multiset{req.provider}))))
      else
        None
  }

  function RowOr(s: State, id: HostId, other: Row): Row { if id in s.rows then s.rows[id] else other }

  /** A commit of provision(): it moves the status on and touches nothing else. */
  function CommitStatus(s: State, p: Pid, req: Request, d: Draft, status: Status, next: Phase): Option<Effect> {
    CreatorCommit(s, p, req, d.id, RowOr(s, d.id, NewRow(req, d)).(status := status), Provision(d, next))
  }

  function StepToFailed(s: State, p: Pid, req: Request, d: Draft): Option<Effect> {
    Some(Quiet(SetProc(p, Creator(req, Provision(d, MarkFailed(s.now))))))
  }

  /** create_vm. A failure may leave a VM behind. */
  function MakeVm(s: State, p: Pid, req: Request, d: Draft, choice: Choice): Option<Effect> {
    match choice
    case Plain => Some(Quiet(SetProc(p, Creator(req, Provision(d, CommitBootstrapping)))).(vm := AddVm(Vm(req.provider, d.name))))
    case Fails => StepToFailed(s, p, req, d)
    case FailsWithVm =>
      Some(Quiet(SetProc(p, Creator(req, Provision(d, MarkFailed(s.now))))).(vm := AddVm(Vm(req.provider, d.name))))
    case _ => None
  }

  /** The lease replaces the safety term, if the row still carries it. */
  function ReplaceLease(c: Config, s: State, p: Pid, req: Request, d: Draft): Option<Effect> {
    if d.id !in s.rows then
      Some(Quiet(SetProc(p, Creator(req, Failed))))
    else if s.rows[d.id].expiresAt != Some(d.initial) then
      Some(Quiet(SetProc(p, Creator(req, Settle(req, d.id)))))
    else
      CreatorCommit(s, p, req, d.id, StampedRow(c, req, s.rows[d.id], d, s.now), Settle(req, d.id))
  }

  function Build(c: Config, s: State, p: Pid, req: Request, d: Draft, phase: Phase, choice: Choice): Option<Effect> {
    match phase
    case CommitNetwork => CommitStatus(s, p, req, d, CreatingNetwork, CommitVm)
    case CommitVm =>
      if choice.Fails? || (req.provider in c.tailnet && !c.tailscale) then StepToFailed(s, p, req, d)
      else CommitStatus(s, p, req, d, CreatingVm, CallProvider)
    case CallProvider => MakeVm(s, p, req, d, choice)
    case CommitBootstrapping =>
      CommitStatus(s, p, req, d, Bootstrapping, if req.provider in c.tailnet then WaitDevice else CommitActive)
    case WaitDevice =>
      if choice.Fails? then StepToFailed(s, p, req, d)
      else
        CreatorCommit(s, p, req, d.id, RowOr(s, d.id, NewRow(req, d)).(hasDevice := true), Provision(d, CommitActive))
    case CommitActive =>
      if choice.Fails? then StepToFailed(s, p, req, d)
      else CommitStatus(s, p, req, d, Active, StampLease)
    case MarkFailed(at) =>
      CreatorCommit(s, p, req, d.id,
                    RowOr(s, d.id, NewRow(req, d)).(status := Error, expiresAt := Some(at), writer := Failure), Failed)
    case StampLease => ReplaceLease(c, s, p, req, d)
  }

  /** The key is unique and its host must exist. Either violation reads as a lost race. */
  function AddKey(c: Config, s: State, p: Pid, req: Request, own: HostId): Option<Effect> {
    if req.key.None? then
      None
    else if req.key.value in s.keys || own !in s.rows then
      Some(Quiet(SetProc(p, Creator(req, ReadLoser(own)))))
    else if !RowFreeFor(s, own, p) then
      None
    else
      Some(Quiet(SetProc(p, Creator(req, Returned(own, true)))).(
        key := PutKey(req.key.value, KeyRecord(own, s.now + c.keyTtl))))
  }

  function LoadLoser(s: State, p: Pid, req: Request, own: HostId): Option<Effect> {
    var next :=
      if own in s.rows then WriteLoser(own, s.rows[own].claimedAt.Some?, s.now) else LookupKey(Some(own));
    Some(Quiet(SetProc(p, Creator(req, next))))
  }

  function ReleaseLoser(c: Config, s: State, p: Pid, req: Request, own: HostId, wasClaimed: bool, now: Time)
    : Option<Effect>
  {
    if own !in s.rows then
      Some(Quiet(SetProc(p, Creator(req, Failed))))
    else
      CreatorCommit(s, p, req, own, ReleasedRow(c, s.rows[own], wasClaimed, now), LookupKey(Some(own)))
  }

  function Advance(c: Config, s: State, p: Pid, req: Request, pc: Pc, choice: Choice): Option<Effect> {
    match pc
    case LookupKey(lost) => FindKey(s, p, req, lost)
    case ReadKeyHost(record, lost) => FindKeyHost(s, p, req, record, lost)
    case DropStaleKey(lost) => CollectKey(p, req, lost)
    case CountAccount => CheckAccount(c, s, p, req)
    case PickWarm(locked) => SelectWarm(c, s, p, req, locked, choice)
    case ClaimWarm(id, at, createdAt, _) => UpdateWarm(c, s, p, req, id, at, createdAt)
    case MintHost(locked) => DraftHost(c, s, p, req, locked, choice)
    case CountProvider(d, locked) => CheckProvider(c, s, p, req, d, locked)
    case InsertRow(d, _, _) => AddHost(s, p, req, d)
    case Provision(d, phase) => Build(c, s, p, req, d, phase, choice)
    case RecordKey(own) => AddKey(c, s, p, req, own)
    case ReadLoser(own) => LoadLoser(s, p, req, own)
    case WriteLoser(own, wasClaimed, now) => ReleaseLoser(c, s, p, req, own, wasClaimed, now)
    case Returned(_, _) => None
    case Failed => None
  }

  // ---- Steps of a delete ----

  /** FOR UPDATE, the maintenance guards, and the choice of what to tear down. */
  function TakeHost(c: Config, s: State, p: Pid, id: HostId, mode: Mode): Option<Effect> {
    if id !in s.rows then
      Some(Quiet(SetProc(p, Deleter(Done(false)))))
    else if !RowFreeFor(s, id, p) then
      None
    else
      var row := s.rows[id];
      var target := Target(id, row.provider, row.name, mode);
      var spared := (mode == Shed && row.claimedAt.Some?) || (mode == Reap && Unexpired(row, s.now));
      var refused := mode != Reap && row.status in DELETE_BLOCKED_STATUSES;
      var next :=
        if spared || refused then Done(false)
        else if mode == Reap || row.status in VM_BACKED_STATUSES then
          if row.hasDevice && c.tailscale then ReleaseDevice(target) else DeleteVm(target, true)
        else DeleteRow(target, true);
      Some(Quiet(SetProc(p, Deleter(next))))
  }

  /** The device goes first, and its commit ends the row lock. */
  function DropDevice(s: State, p: Pid, t: Target, choice: Choice): Option<Effect> {
    if choice.Fails? then
      Some(Quiet(SetProc(p, Deleter(Done(false)))))
    else if t.id !in s.rows || !RowFreeFor(s, t.id, p) then
      None
    else
      Some(Quiet(SetProc(p, Deleter(DeleteVm(t, false)))).(row := PutRow(t.id, s.rows[t.id].(hasDevice := false))))
  }

  /** delete_secrets and delete_vm; a VM that is already absent is no failure. */
  function DropVmOf(p: Pid, t: Target, locked: bool, choice: Choice): Option<Effect> {
    if choice.Fails? then
      Some(Quiet(SetProc(p, Deleter(Done(false)))))
    else
      Some(Quiet(SetProc(p, Deleter(DeleteRow(t, locked)))).(vm := DropVm(Vm(t.provider, t.name))))
  }

  function DropHost(s: State, p: Pid, t: Target): Option<Effect> {
    if !RowFreeFor(s, t.id, p) then None
    else Some(Quiet(SetProc(p, Deleter(Done(true)))).(row := DropRow(t.id)))
  }

  function Remove(c: Config, s: State, p: Pid, stage: Stage, choice: Choice): Option<Effect> {
    match stage
    case LockHost(id, mode) => TakeHost(c, s, p, id, mode)
    case ReleaseDevice(t) => DropDevice(s, p, t, choice)
    case DeleteVm(t, locked) => DropVmOf(p, t, locked, choice)
    case DeleteRow(t, locked) => DropHost(s, p, t)
    case Done(_) => None
  }

  // ---- The whole system ----

  datatype Action =
    | Pass(to: Time)
    | Ask(p: Pid, req: Request)
    | Erase(p: Pid, id: HostId, mode: Mode)
    | Go(p: Pid, choice: Choice)
    | Halt(p: Pid)
    | Renew(id: HostId, end: Option<Time>)
    | Evict(vm: Vm)
    | TickStart(slot: nat, at: Time, batch: multiset<Provider>)
    | TickList(slot: nat, excess: set<HostId>)
    | TickCreate(slot: nat, p: Pid, provider: Provider)
    | TickShed(slot: nat, p: Pid, id: HostId)
    | TickEnd(slot: nat)

  function Deficit(c: Config, s: State, provider: Provider, at: Time): nat {
    var counted := |WarmOfProvider(s, provider, at)|;
    if provider in c.targets && c.targets[provider] > counted then c.targets[provider] - counted else 0
  }

  /** The batch a tick may plan from its count, which reads leases against `at`. */
  predicate IsPlan(c: Config, s: State, at: Time, batch: multiset<Provider>) {
    && at <= s.now
    && |batch| <= c.createsPerTick
    && (forall provider :: provider in batch ==> batch[provider] <= Deficit(c, s, provider, at))
  }

  /** What a tick may list to shed, at any later moment, against the clock of its count. */
  predicate IsShedList(s: State, at: Time, excess: set<HostId>) {
    forall id :: id in excess ==> id in s.rows && Warm(s.rows[id], at)
  }

  function RenewedRow(c: Config, row: Row, end: Option<Time>, now: Time): Row {
    row.(expiresAt := LeaseEnd(c, row.provider, row.createdAt, Some(if end.Some? then end.value else now + c.leaseTtl)),
         writer := Renewal)
  }

  predicate Renewable(row: Row) {
    !(row.poolMember && row.claimedAt.None?) && row.status in RENEWABLE_STATUSES
  }

  /** The effect of an action; None when it cannot happen, or waits for a lock. */
  function Transition(c: Config, s: State, a: Action): Option<Effect> {
    match a
    case Pass(to) =>
      if to < s.now then None else Some(Quiet(KeepProcs).(clock := Some(to)))
    case Ask(p, req) =>
      if p in s.procs || req.tick.Some? then None
      else Some(Quiet(SetProc(p, Creator(req, if req.key.Some? then LookupKey(None) else CountAccount))))
    case Erase(p, id, mode) =>
      if p in s.procs || mode == Shed then None else Some(Quiet(SetProc(p, Deleter(LockHost(id, mode)))))
    case Go(p, choice) =>
      if p !in s.procs then None
      else (match s.procs[p]
            case Creator(req, pc) => Advance(c, s, p, req, pc, choice)
            case Deleter(stage) => Remove(c, s, p, stage, choice))
    case Halt(p) =>
      if p !in s.procs || (s.procs[p].Creator? && s.procs[p].pc.Returned?) then None else Some(Quiet(EndProc(p)))
    case Renew(id, end) =>
      if id in s.rows && RowFree(s, id) && Renewable(s.rows[id]) then
        Some(Quiet(KeepProcs).(row := PutRow(id, RenewedRow(c, s.rows[id], end, s.now))))
      else None
    case Evict(vm) =>
      Some(Quiet(KeepProcs).(vm := DropVm(vm)))
    case TickStart(slot, at, batch) =>
      if slot < |s.ticks| && s.ticks[slot].Idle? && IsPlan(c, s, at, batch) then
        Some(Quiet(KeepProcs).(tick := SetTick(slot, Running(batch, {}, at))))
      else None
    case TickList(slot, excess) =>
      if slot < |s.ticks| && s.ticks[slot].Running? && IsShedList(s, s.ticks[slot].at, excess) then
        var tick := s.ticks[slot];
        Some(Quiet(KeepProcs).(tick := SetTick(slot, tick.(excess := tick.excess + excess))))
      else None
    case TickCreate(slot, p, provider) =>
      if p !in s.procs && slot < |s.ticks| && s.ticks[slot].Running? && provider in s.ticks[slot].batch then
        var req := Request(None, None, Until(s.now + c.poolMaxAge), provider, false, Some(slot));
        Some(Quiet(SetProc(p, Creator(req, MintHost(false)))))
      else None
    case TickShed(slot, p, id) =>
      if p !in s.procs && slot < |s.ticks| && s.ticks[slot].Running? && id in s.ticks[slot].excess then
        Some(Quiet(SetProc(p, Deleter(LockHost(id, Shed)))))
      else None
    case TickEnd(slot) =>
      if slot < |s.ticks| then Some(Quiet(KeepProcs).(tick := SetTick(slot, Idle))) else None
  }

  predicate Enabled(c: Config, s: State, a: Action) {
    Transition(c, s, a).Some?
  }

  function Next(c: Config, s: State, a: Action): State
    requires Enabled(c, s, a)
  {
    Commit(s, Transition(c, s, a).value)
  }

  /** An empty database before any request. */
  predicate Start(s: State) {
    && s.rows == map[] && s.keys == map[] && s.vms == {} && s.used == {} && s.past == {} && s.procs == map[]
    && forall k :: 0 <= k < |s.ticks| ==> s.ticks[k].Idle?
  }

  /** A run: any interleaving of any number of processes. */
  ghost predicate IsRun(c: Config, states: seq<State>, actions: seq<Action>) {
    && |states| == |actions| + 1
    && forall i :: 0 <= i < |actions| ==>
         Enabled(c, states[i], actions[i]) && states[i + 1] == Next(c, states[i], actions[i])
  }

  /** Process ids and uuids never run out. */
  lemma {:induction false} FreshId(ids: set<nat>) returns (bound: nat)
    ensures forall id :: id in ids ==> id < bound
  {
    if ids == {} {
      bound := 0;
    } else {
      var q :| q in ids;
      var below := FreshId(ids - {q});
      bound := if q < below then below else q + 1;
      assert forall id :: id in ids ==> id == q || id in ids - {q};
    }
  }
}
