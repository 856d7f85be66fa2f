/** What holds between the rows, the keys and the program counters in every reachable state. */
module HostSafety {
  import opened Wrappers
  import opened HostModel
  import opened HostProtocol

  predicate HasDraft(pc: Pc) {
    pc.CountProvider? || pc.InsertRow? || pc.Provision?
  }

  /** The draft a creator carries, from the fresh uuid to the lease stamp. */
  function DraftOf(proc: Proc): Option<Draft> {
    if proc.Creator? && HasDraft(proc.pc) then Some(proc.pc.draft) else None
  }

  predicate StatusFits(phase: Phase, status: Status) {
    match phase
    case CommitNetwork => status == Provisioning
    case CommitVm => status == CreatingNetwork
    case CallProvider => status == CreatingVm
    case CommitBootstrapping => status == CreatingVm
    case WaitDevice => status == Bootstrapping
    case CommitActive => status == Bootstrapping
    case MarkFailed(_) => status != Active && status != Error
    case StampLease => status == Active
  }

  predicate DraftFits(req: Request, d: Draft, row: Row) {
    && row.name == d.name
    && row.provider == req.provider
    && row.createdAt == d.createdAt
    && row.poolMember == req.tick.Some?
    && (!row.poolMember ==> row.permanent == req.lease.Permanent?)
    && (row.writer == Initial ==> row.expiresAt == Some(d.initial))
  }

  predicate DraftOk(s: State, req: Request, pc: Pc, d: Draft) {
    && d.id in s.used
    && d.createdAt <= s.now
    && (req.lease.Until? ==> req.lease.end <= d.initial)
    && (!pc.Provision? ==> d.id !in s.past)
    && (pc.Provision? ==>
          && d.id in s.past
          && (d.id in s.rows ==> DraftFits(req, d, s.rows[d.id]) && StatusFits(pc.phase, s.rows[d.id].status))
          && (pc.phase.MarkFailed? ==> pc.phase.failedAt <= s.now))
  }

  predicate RequestOk(req: Request) {
    req.tick.Some? ==> req.key.None? && req.account.None? && req.lease.Until?
  }

  /** Only a request of a caller looks up keys, counts accounts, claims and records. */
  predicate IsCallerPc(pc: Pc) {
    pc.LookupKey? || pc.ReadKeyHost? || pc.DropStaleKey? || pc.CountAccount? || pc.PickWarm? || pc.ClaimWarm?
    || pc.RecordKey? || pc.ReadLoser? || pc.WriteLoser?
  }

  predicate CreatorOk(c: Config, s: State, req: Request, pc: Pc) {
    && RequestOk(req)
    && (IsCallerPc(pc) ==> req.tick.None?)
    && (HasDraft(pc) ==> DraftOk(s, req, pc, pc.draft))
    && (pc.ClaimWarm? ==>
          && pc.at <= s.now
          && pc.id in s.past
          && (pc.id in s.rows ==>
                var row := s.rows[pc.id];
                && row.poolMember && row.status == Active
                && row.provider == req.provider && row.createdAt == pc.createdAt
                && (req.provider in c.maxLifetime && req.lease.Until? ==>
                      req.lease.end <= row.createdAt + c.maxLifetime[req.provider])))
    && (pc.RecordKey? ==> pc.own in s.past && (pc.own in s.rows ==> s.rows[pc.own].status == Active))
    && (pc.ReadLoser? ==> pc.own in s.past && (pc.own in s.rows ==> s.rows[pc.own].status == Active))
    && (pc.WriteLoser? ==>
          && pc.now <= s.now && pc.own in s.past
          && (pc.own in s.rows ==>
                s.rows[pc.own].status == Active && (pc.wasClaimed ==> s.rows[pc.own].poolMember)))
  }

  predicate GuardHolds(row: Row, mode: Mode, now: Time) {
    && (mode == Shed ==> row.claimedAt.None?)
    && (mode == Reap ==> !Unexpired(row, now))
  }

  predicate HasTarget(stage: Stage) {
    stage.ReleaseDevice? || stage.DeleteVm? || stage.DeleteRow?
  }

  predicate DeleterOk(s: State, stage: Stage) {
    HasTarget(stage) ==>
      var t := stage.target;
      && t.id in s.past
      && (t.id in s.rows ==> s.rows[t.id].provider == t.provider && s.rows[t.id].name == t.name)
      && (RowLock(Deleter(stage)).Some? ==> t.id in s.rows && GuardHolds(s.rows[t.id], t.mode, s.now))
  }

  predicate ProcOk(c: Config, s: State, proc: Proc) {
    match proc
    case Creator(req, pc) => CreatorOk(c, s, req, pc)
    case Deleter(stage) => DeleterOk(s, stage)
  }

  predicate RowOk(c: Config, now: Time, row: Row) {
    && row.createdAt <= now
    && (row.status != Active ==> row.expiresAt.Some?)
    && (row.status == Error ==> row.expiresAt.value <= now)
    && (row.expiresAt.None? ==> row.permanent && row.provider !in c.maxLifetime)
    && (row.writer in {Stamp, Renewal, Claim, PoolReturn} ==> WithinLifetime(c, row))
    && (row.claimedAt.Some? ==> row.poolMember && row.status == Active)
    && (row.permanent && row.poolMember ==> row.claimedAt.Some?)
  }

  /** At most one process holds each row, account and provider. */
  ghost predicate LocksExclusive(s: State) {
    && (forall p, q :: p in s.procs && q in s.procs && p != q && RowLock(s.procs[p]).Some? ==>
          RowLock(s.procs[p]) != RowLock(s.procs[q]))
    && (forall p, q :: p in s.procs && q in s.procs && p != q && AccountLock(s.procs[p]).Some? ==>
          AccountLock(s.procs[p]) != AccountLock(s.procs[q]))
    && (forall p, q :: p in s.procs && q in s.procs && p != q && ProviderLock(s.procs[p]).Some? ==>
          ProviderLock(s.procs[p]) != ProviderLock(s.procs[q]))
  }

  ghost predicate DraftsDistinct(s: State) {
    forall p, q :: p in s.procs && q in s.procs && p != q
                   && DraftOf(s.procs[p]).Some? && DraftOf(s.procs[q]).Some? ==>
      DraftOf(s.procs[p]).value.id != DraftOf(s.procs[q]).value.id
  }

  ghost predicate NamesUnique(s: State) {
    forall x, y :: x in s.rows && y in s.rows && x != y ==> s.rows[x].name != s.rows[y].name
  }

  ghost predicate RowsOk(c: Config, s: State) {
    s.past <= s.used && forall id :: id in s.rows ==> id in s.past && RowOk(c, s.now, s.rows[id])
  }

  ghost predicate KeysOk(s: State) {
    forall k :: k in s.keys ==> s.keys[k].host in s.rows
  }

  ghost predicate ProcsOk(c: Config, s: State) {
    forall p :: p in s.procs ==> ProcOk(c, s, s.procs[p])
  }

  ghost predicate Safe(c: Config, s: State) {
    RowsOk(c, s) && ProcsOk(c, s) && LocksExclusive(s) && DraftsDistinct(s) && NamesUnique(s) && KeysOk(s)
  }

  // ---- What one step does to one row ----

  /** How a row may change in one step: its identity stays, ACTIVE is kept, and ERROR keeps its lease too. */
  predicate Evolves(was: Row, row: Row) {
    && row.name == was.name && row.provider == was.provider
    && row.createdAt == was.createdAt && row.poolMember == was.poolMember
    && (was.status == Active ==> row.status == Active)
    && (was.status == Error ==> row.status == Error && row.expiresAt == was.expiresAt)
    && (row.writer == Initial ==> was.writer == Initial && row.expiresAt == was.expiresAt)
    && (!row.poolMember ==> row.permanent == was.permanent)
  }

  /** A written row is new under a fresh id and name, or evolves from the row it replaces. */
  ghost predicate PutFits(c: Config, s: State, change: RowChange) {
    change.PutRow? ==>
      && change.id in s.used
      && RowOk(c, s.now, change.row)
      && (change.id in s.rows ==> Evolves(s.rows[change.id], change.row))
      && (change.id !in s.rows ==>
            && change.id !in s.past
            && change.row.status == Provisioning
            && forall id :: id in s.rows ==> s.rows[id].name != change.row.name)
  }

  /** The change of a row leaves another process alone: it honours the row lock and, on the row of a creator, keeps
      the status that its program counter stands for. */
  predicate Spares(s: State, change: RowChange, proc: Proc) {
    && (change.PutRow? ==>
          && RowLock(proc) != Some(change.id)
          && (DraftOf(proc).Some? && DraftOf(proc).value.id == change.id ==>
                change.id in s.rows && change.row.status == s.rows[change.id].status))
    && (change.DropRow? ==> RowLock(proc) != Some(change.gone))
  }

  ghost predicate SparesOthers(s: State, actor: Option<Pid>, change: RowChange) {
    forall q :: q in s.procs && Some(q) != actor ==> Spares(s, change, s.procs[q])
  }

  /** A lock is kept, or taken when no other process holds it; a draft is kept, or fresh. */
  ghost predicate Gains(s: State, p: Pid, next: Proc, minted: set<HostId>) {
    && (RowLock(next).Some? ==> RowFreeFor(s, RowLock(next).value, p))
    && (AccountLock(next).Some? ==>
          AccountFree(s, AccountLock(next).value)
          || (p in s.procs && AccountLock(next) == AccountLock(s.procs[p])))
    && (ProviderLock(next).Some? ==>
          ProviderFree(s, ProviderLock(next).value)
          || (p in s.procs && ProviderLock(next) == ProviderLock(s.procs[p])))
    && (DraftOf(next).Some? ==>
          (p in s.procs && DraftOf(s.procs[p]) == DraftOf(next))
          || (DraftOf(next).value.id !in s.used && DraftOf(next).value.id in minted))
  }

  /** All that one step of process `p` owes to the rest of the system. */
  ghost predicate StepSound(c: Config, s: State, p: Pid, effect: Option<Effect>) {
    effect.Some? ==>
      var e := effect.value;
      && e.proc.SetProc? && e.proc.p == p
      && e.clock.None?
      && PutFits(c, s, e.row)
      && SparesOthers(s, Some(p), e.row)
      && Gains(s, p, e.proc.proc, e.minted)
      && ProcOk(c, Commit(s, e), e.proc.proc)
      && (!e.key.KeepKeys? ==> e.row.KeepRows?)
      && (e.key.PutKey? ==> e.key.record.host in s.rows)
  }

  lemma UpdateWarmSound(c: Config, s: State, p: Pid, req: Request, pc: Pc)
    requires RowsOk(c, s) && CreatorOk(c, s, req, pc) && p in s.procs && s.procs[p] == Creator(req, pc) && pc.ClaimWarm?
    ensures StepSound(c, s, p, UpdateWarm(c, s, p, req, pc.id, pc.at, pc.createdAt))
  {
  }

  /** No process refers to a row that was never inserted. */
  lemma NewRowUnlocked(c: Config, s: State, id: HostId)
    requires ProcsOk(c, s) && id !in s.past
    ensures RowFree(s, id)
  {
    forall q | q in s.procs
      ensures RowLock(s.procs[q]) != Some(id)
    {
      assert ProcOk(c, s, s.procs[q]);
    }
  }

  /** A creator that writes the row of its draft touches no other creator. */
  lemma DraftSpares(s: State, p: Pid, row: Row)
    requires DraftsDistinct(s) && p in s.procs && DraftOf(s.procs[p]).Some?
    requires RowFreeFor(s, DraftOf(s.procs[p]).value.id, p)
    ensures SparesOthers(s, Some(p), PutRow(DraftOf(s.procs[p]).value.id, row))
  {
  }

  lemma NewRowFits(c: Config, s: State, req: Request, pc: Pc)
    requires RowsOk(c, s) && CreatorOk(c, s, req, pc) && pc.InsertRow?
    ensures (forall id :: id in s.rows ==> s.rows[id].name != pc.draft.name) ==>
              PutFits(c, s, PutRow(pc.draft.id, NewRow(req, pc.draft)))
  {
  }

  lemma NewRowLands(c: Config, s: State, req: Request, pc: Pc, e: Effect)
    requires CreatorOk(c, s, req, pc) && pc.InsertRow?
    requires e.row == PutRow(pc.draft.id, NewRow(req, pc.draft)) && e.clock.None?
    ensures DraftOk(Commit(s, e), req, Provision(pc.draft, CommitNetwork), pc.draft)
  {
  }

  lemma InsertGains(s: State, p: Pid, req: Request, pc: Pc)
    requires p in s.procs && s.procs[p] == Creator(req, pc) && pc.InsertRow? && RowFree(s, pc.draft.id)
    ensures Gains(s, p, Creator(req, Provision(pc.draft, CommitNetwork)), {})
    ensures Gains(s, p, Creator(req, Failed), {})
  {
    hide RowFree, AccountFree, ProviderFree;
  }

  lemma AddHostSound(c: Config, s: State, p: Pid, req: Request, pc: Pc)
    requires RowsOk(c, s) && CreatorOk(c, s, req, pc) && DraftsDistinct(s)
    requires p in s.procs && s.procs[p] == Creator(req, pc) && pc.InsertRow? && RowFree(s, pc.draft.id)
    ensures StepSound(c, s, p, AddHost(s, p, req, pc.draft))
  {
    hide DraftsDistinct, RowOk, DraftOk, RowsOk;
    assert PutFits(c, s, KeepRows) && SparesOthers(s, Some(p), KeepRows);
    hide PutFits, SparesOthers;
    DraftSpares(s, p, NewRow(req, pc.draft));
    InsertGains(s, p, req, pc);
    hide RowFree, Gains;
    NewRowFits(c, s, req, pc);
    var effect := AddHost(s, p, req, pc.draft);
    if effect.Some? && effect.value.row.PutRow? {
      NewRowLands(c, s, req, pc, effect.value);
    }
  }

  lemma StampFits(c: Config, s: State, p: Pid, req: Request, pc: Pc)
    requires RowsOk(c, s) && CreatorOk(c, s, req, pc)
    requires pc.Provision? && pc.phase.StampLease? && pc.draft.id in s.rows
    requires s.rows[pc.draft.id].expiresAt == Some(pc.draft.initial)
    ensures RowOk(c, s.now, StampedRow(c, req, s.rows[pc.draft.id], pc.draft, s.now))
  {
  }

  lemma ReplaceLeaseSound(c: Config, s: State, p: Pid, req: Request, pc: Pc)
    requires RowsOk(c, s) && CreatorOk(c, s, req, pc) && DraftsDistinct(s)
    requires p in s.procs && s.procs[p] == Creator(req, pc) && pc.Provision? && pc.phase.StampLease?
    ensures StepSound(c, s, p, ReplaceLease(c, s, p, req, pc.draft))
  {
    if pc.draft.id in s.rows && s.rows[pc.draft.id].expiresAt == Some(pc.draft.initial) {
      StampFits(c, s, p, req, pc);
      if RowFreeFor(s, pc.draft.id, p) {
        DraftSpares(s, p, StampedRow(c, req, s.rows[pc.draft.id], pc.draft, s.now));
      }
    }
    hide RowOk, LeaseEnd, Requested, DraftsDistinct, SparesOthers;
  }

  lemma ReleaseLoserSound(c: Config, s: State, p: Pid, req: Request, pc: Pc)
    requires RowsOk(c, s) && CreatorOk(c, s, req, pc)
    requires p in s.procs && s.procs[p] == Creator(req, pc) && pc.WriteLoser?
    ensures StepSound(c, s, p, ReleaseLoser(c, s, p, req, pc.own, pc.wasClaimed, pc.now))
  {
  }

  /** A commit of provision() that sets the status or the device, or marks the failure. */
  lemma CommitSound(c: Config, s: State, p: Pid, req: Request, pc: Pc, row: Row, next: Pc)
    requires RowsOk(c, s) && CreatorOk(c, s, req, pc) && DraftsDistinct(s)
    requires p in s.procs && s.procs[p] == Creator(req, pc) && pc.Provision?
    requires pc.draft.id in s.rows ==> RowOk(c, s.now, row) && Evolves(s.rows[pc.draft.id], row)
    requires next == Failed || (next.Provision? && next.draft == pc.draft && !next.phase.MarkFailed?
                                && (pc.draft.id in s.rows ==> StatusFits(next.phase, row.status)))
    ensures StepSound(c, s, p, CreatorCommit(s, p, req, pc.draft.id, row, next))
  {
    if pc.draft.id in s.rows && RowFreeFor(s, pc.draft.id, p) {
      DraftSpares(s, p, row);
    }
    hide RowOk, DraftsDistinct, SparesOthers;
  }

  /** The calls of provision(): they write no row. */
  lemma CallSound(c: Config, s: State, p: Pid, req: Request, pc: Pc, choice: Choice)
    requires RowsOk(c, s) && CreatorOk(c, s, req, pc)
    requires p in s.procs && s.procs[p] == Creator(req, pc) && pc.Provision?
    ensures StepSound(c, s, p, StepToFailed(s, p, req, pc.draft)) || pc.phase.MarkFailed? || pc.phase.StampLease?
    ensures pc.phase.CallProvider? ==> StepSound(c, s, p, MakeVm(s, p, req, pc.draft, choice))
  {
    hide RowOk, RowFree, AccountFree, ProviderFree, DraftFits;
  }

  lemma StatusFitsRow(c: Config, s: State, req: Request, pc: Pc, status: Status)
    requires RowsOk(c, s) && CreatorOk(c, s, req, pc) && pc.Provision? && pc.draft.id in s.rows
    requires !pc.phase.StampLease? && status != Error
    ensures var row := s.rows[pc.draft.id];
            RowOk(c, s.now, row.(status := status)) && Evolves(row, row.(status := status))
            && RowOk(c, s.now, row.(hasDevice := true)) && Evolves(row, row.(hasDevice := true))
  {
  }

  lemma StatusSound(c: Config, s: State, p: Pid, req: Request, pc: Pc, status: Status, next: Phase)
    requires RowsOk(c, s) && CreatorOk(c, s, req, pc) && DraftsDistinct(s)
    requires p in s.procs && s.procs[p] == Creator(req, pc) && pc.Provision? && !pc.phase.StampLease?
    requires status != Error && !next.MarkFailed? && StatusFits(next, status)
    ensures StepSound(c, s, p, CommitStatus(s, p, req, pc.draft, status, next))
  {
    if pc.draft.id in s.rows {
      StatusFitsRow(c, s, req, pc, status);
    }
    hide StepSound, CreatorCommit, DraftsDistinct, RowOk, Evolves;
    CommitSound(c, s, p, req, pc, RowOr(s, pc.draft.id, NewRow(req, pc.draft)).(status := status),
                Provision(pc.draft, next));
  }

  lemma FinalSound(c: Config, s: State, p: Pid, req: Request, pc: Pc)
    requires RowsOk(c, s) && CreatorOk(c, s, req, pc) && DraftsDistinct(s)
    requires p in s.procs && s.procs[p] == Creator(req, pc) && pc.Provision?
    requires pc.phase.WaitDevice? || pc.phase.MarkFailed?
    ensures StepSound(c, s, p, Build(c, s, p, req, pc.draft, pc.phase, Plain))
  {
    var d := pc.draft;
    var row := RowOr(s, d.id, NewRow(req, d));
    hide StepSound, CreatorCommit, DraftsDistinct, MakeVm, ReplaceLease;
    if pc.phase.WaitDevice? {
      if d.id in s.rows {
        StatusFitsRow(c, s, req, pc, Bootstrapping);
      }
      CommitSound(c, s, p, req, pc, row.(hasDevice := true), Provision(d, CommitActive));
    } else {
      CommitSound(c, s, p, req, pc, row.(status := Error, expiresAt := Some(pc.phase.failedAt), writer := Failure),
                  Failed);
    }
  }

  lemma BuildSound(c: Config, s: State, p: Pid, req: Request, pc: Pc, choice: Choice)
    requires RowsOk(c, s) && CreatorOk(c, s, req, pc) && DraftsDistinct(s)
    requires p in s.procs && s.procs[p] == Creator(req, pc) && pc.Provision?
    ensures StepSound(c, s, p, Build(c, s, p, req, pc.draft, pc.phase, choice))
  {
    CallSound(c, s, p, req, pc, choice);
    hide RowsOk, CreatorOk, DraftsDistinct, StepSound, CreatorCommit, CommitStatus, MakeVm, ReplaceLease, StepToFailed;
    match pc.phase
    case CommitNetwork => StatusSound(c, s, p, req, pc, CreatingNetwork, CommitVm);
    case CommitVm => StatusSound(c, s, p, req, pc, CreatingVm, CallProvider);
    case CallProvider =>
    case CommitBootstrapping =>
      StatusSound(c, s, p, req, pc, Bootstrapping, if req.provider in c.tailnet then WaitDevice else CommitActive);
    case WaitDevice => FinalSound(c, s, p, req, pc);
    case CommitActive => StatusSound(c, s, p, req, pc, Active, StampLease);
    case MarkFailed(_) => FinalSound(c, s, p, req, pc);
    case StampLease => ReplaceLeaseSound(c, s, p, req, pc);
  }

  lemma LookupSound(c: Config, s: State, p: Pid, req: Request, pc: Pc)
    requires RowsOk(c, s) && CreatorOk(c, s, req, pc)
    requires p in s.procs && s.procs[p] == Creator(req, pc)
    ensures pc.LookupKey? ==> StepSound(c, s, p, FindKey(s, p, req, pc.lost))
    ensures pc.ReadKeyHost? ==> StepSound(c, s, p, FindKeyHost(s, p, req, pc.record, pc.lost))
    ensures pc.DropStaleKey? ==> StepSound(c, s, p, CollectKey(p, req, pc.lost))
  {
  }

  lemma AccountSound(c: Config, s: State, p: Pid, req: Request, pc: Pc)
    requires RowsOk(c, s) && CreatorOk(c, s, req, pc)
    requires p in s.procs && s.procs[p] == Creator(req, pc) && pc.CountAccount?
    ensures StepSound(c, s, p, CheckAccount(c, s, p, req))
  {
    hide LiveOfAccount, AccountFree, ProviderFree, RowOk;
  }

  lemma SelectSound(c: Config, s: State, p: Pid, req: Request, pc: Pc, choice: Choice)
    requires RowsOk(c, s) && CreatorOk(c, s, req, pc)
    requires p in s.procs && s.procs[p] == Creator(req, pc) && pc.PickWarm?
    ensures StepSound(c, s, p, SelectWarm(c, s, p, req, pc.locked, choice))
  {
  }

  lemma DraftSound(c: Config, s: State, p: Pid, req: Request, pc: Pc, choice: Choice)
    requires RowsOk(c, s) && CreatorOk(c, s, req, pc)
    requires p in s.procs && s.procs[p] == Creator(req, pc) && pc.MintHost?
    ensures StepSound(c, s, p, DraftHost(c, s, p, req, pc.locked, choice))
  {
  }

  lemma CountSound(c: Config, s: State, p: Pid, req: Request, pc: Pc)
    requires RowsOk(c, s) && CreatorOk(c, s, req, pc)
    requires p in s.procs && s.procs[p] == Creator(req, pc) && pc.CountProvider?
    ensures StepSound(c, s, p, CheckProvider(c, s, p, req, pc.draft, pc.locked))
  {
    hide LiveOfProvider, AccountFree, ProviderFree, RowOk;
  }

  lemma RecordSound(c: Config, s: State, p: Pid, req: Request, pc: Pc)
    requires RowsOk(c, s) && CreatorOk(c, s, req, pc)
    requires p in s.procs && s.procs[p] == Creator(req, pc)
    ensures pc.RecordKey? ==> StepSound(c, s, p, AddKey(c, s, p, req, pc.own))
    ensures pc.ReadLoser? ==> StepSound(c, s, p, LoadLoser(s, p, req, pc.own))
  {
  }

  lemma AdvanceSound(c: Config, s: State, p: Pid, req: Request, pc: Pc, choice: Choice)
    requires RowsOk(c, s) && ProcsOk(c, s) && DraftsDistinct(s)
    requires p in s.procs && s.procs[p] == Creator(req, pc)
    ensures StepSound(c, s, p, Advance(c, s, p, req, pc, choice))
  {
    assert CreatorOk(c, s, req, pc) by { assert ProcOk(c, s, s.procs[p]); }
    hide StepSound, FindKey, FindKeyHost, CollectKey, CheckAccount, SelectWarm, UpdateWarm, DraftHost, CheckProvider,
         AddHost, Build, AddKey, LoadLoser, ReleaseLoser;
    match pc
    case ClaimWarm(_, _, _, _) => UpdateWarmSound(c, s, p, req, pc);
    case InsertRow(d, _, _) =>
      assert d.id !in s.past;
      NewRowUnlocked(c, s, d.id);
      AddHostSound(c, s, p, req, pc);
    case Provision(_, _) => BuildSound(c, s, p, req, pc, choice);
    case WriteLoser(_, _, _) => ReleaseLoserSound(c, s, p, req, pc);
    case CountAccount => AccountSound(c, s, p, req, pc);
    case PickWarm(_) => SelectSound(c, s, p, req, pc, choice);
    case MintHost(_) => DraftSound(c, s, p, req, pc, choice);
    case CountProvider(_, _) => CountSound(c, s, p, req, pc);
    case _ =>
      LookupSound(c, s, p, req, pc);
      RecordSound(c, s, p, req, pc);
  }

  lemma TakeHostSound(c: Config, s: State, p: Pid, stage: Stage)
    requires RowsOk(c, s) && p in s.procs && s.procs[p] == Deleter(stage) && stage.LockHost?
    ensures StepSound(c, s, p, TakeHost(c, s, p, stage.id, stage.mode))
  {
    hide RowOk;
  }

  lemma DropDeviceSound(c: Config, s: State, p: Pid, t: Target, choice: Choice)
    requires RowsOk(c, s) && DeleterOk(s, ReleaseDevice(t)) && LocksExclusive(s)
    requires p in s.procs && s.procs[p] == Deleter(ReleaseDevice(t))
    ensures StepSound(c, s, p, DropDevice(s, p, t, choice))
  {
    hide LocksExclusive;
  }

  lemma DropVmSound(c: Config, s: State, p: Pid, t: Target, locked: bool, choice: Choice)
    requires RowsOk(c, s) && DeleterOk(s, DeleteVm(t, locked)) && LocksExclusive(s)
    requires p in s.procs && s.procs[p] == Deleter(DeleteVm(t, locked))
    ensures StepSound(c, s, p, DropVmOf(p, t, locked, choice))
  {
    hide RowOk;
  }

  lemma DropHostSound(c: Config, s: State, p: Pid, t: Target, locked: bool)
    requires RowsOk(c, s) && p in s.procs && s.procs[p] == Deleter(DeleteRow(t, locked))
    ensures StepSound(c, s, p, DropHost(s, p, t))
  {
    hide RowOk;
  }

  lemma RemoveSound(c: Config, s: State, p: Pid, stage: Stage, choice: Choice)
    requires RowsOk(c, s) && DeleterOk(s, stage) && LocksExclusive(s)
    requires p in s.procs && s.procs[p] == Deleter(stage)
    ensures StepSound(c, s, p, Remove(c, s, p, stage, choice))
  {
    assert stage.Done? ==> StepSound(c, s, p, None);
    hide StepSound, TakeHost, DropDevice, DropVmOf, DropHost, RowsOk, DeleterOk, LocksExclusive;
    match stage
    case LockHost(_, _) => TakeHostSound(c, s, p, stage);
    case ReleaseDevice(t) => DropDeviceSound(c, s, p, t, choice);
    case DeleteVm(t, locked) => DropVmSound(c, s, p, t, locked, choice);
    case DeleteRow(t, locked) => DropHostSound(c, s, p, t, locked);
    case Done(_) =>
  }

  // ---- Every action keeps the invariant ----

  function ActorOf(change: ProcChange): Option<Pid> {
    match change
    case KeepProcs => None
    case SetProc(p, _) => Some(p)
    case EndProc(p) => Some(p)
  }

  ghost predicate EffectSound(c: Config, s: State, e: Effect) {
    && (e.proc.SetProc? ==> Gains(s, e.proc.p, e.proc.proc, e.minted) && ProcOk(c, Commit(s, e), e.proc.proc))
    && (e.clock.Some? ==> s.now <= e.clock.value)
    && PutFits(c, s, e.row)
    && SparesOthers(s, ActorOf(e.proc), e.row)
    && (!e.key.KeepKeys? ==> e.row.KeepRows?)
    && (e.key.PutKey? ==> e.key.record.host in s.rows)
  }

  lemma RenewSound(c: Config, s: State, a: Action)
    requires RowsOk(c, s) && ProcsOk(c, s) && a.Renew? && Enabled(c, s, a)
    ensures EffectSound(c, s, Transition(c, s, a).value)
  {
    var row := RenewedRow(c, s.rows[a.id], a.end, s.now);
    assert RowOk(c, s.now, row);
    hide Advance, Remove, LeaseEnd, WithinLifetime, RowOk, ProcsOk;
  }

  lemma BeginSound(c: Config, s: State, a: Action)
    requires !a.Renew? && !a.Go? && Enabled(c, s, a)
    ensures EffectSound(c, s, Transition(c, s, a).value)
  {
    hide Advance, Remove, IsPlan, Renewable;
  }

  lemma TransitionSound(c: Config, s: State, a: Action)
    requires Safe(c, s) && Enabled(c, s, a)
    ensures EffectSound(c, s, Transition(c, s, a).value)
  {
    match a
    case Go(p, choice) =>
      GoSound(c, s, p, choice);
      hide Safe, Advance, Remove, PutFits, SparesOthers, Gains, ProcOk;
    case Renew(id, end) => RenewSound(c, s, a);
    case _ => BeginSound(c, s, a);
  }

  lemma GoSound(c: Config, s: State, p: Pid, choice: Choice)
    requires Safe(c, s) && p in s.procs
    ensures match s.procs[p]
            case Creator(req, pc) => StepSound(c, s, p, Advance(c, s, p, req, pc, choice))
            case Deleter(stage) => StepSound(c, s, p, Remove(c, s, p, stage, choice))
  {
    hide StepSound, Advance, Remove;
    assert ProcOk(c, s, s.procs[p]);
    match s.procs[p]
    case Creator(req, pc) => AdvanceSound(c, s, p, req, pc, choice);
    case Deleter(stage) => RemoveSound(c, s, p, stage, choice);
  }

  lemma KeepsRows(c: Config, s: State, e: Effect)
    requires RowsOk(c, s) && EffectSound(c, s, e)
    ensures RowsOk(c, Commit(s, e))
  {
    hide SparesOthers, Gains, ProcOk;
  }

  lemma KeepsLocks(c: Config, s: State, e: Effect)
    requires LocksExclusive(s) && EffectSound(c, s, e)
    ensures LocksExclusive(Commit(s, e))
  {
    hide SparesOthers, ProcOk, PutFits, RowLock, AccountLock, ProviderLock, DraftOf;
  }

  lemma KeepsDrafts(c: Config, s: State, e: Effect)
    requires ProcsOk(c, s) && DraftsDistinct(s) && EffectSound(c, s, e)
    ensures DraftsDistinct(Commit(s, e))
  {
    forall p | p in s.procs && DraftOf(s.procs[p]).Some?
      ensures DraftOf(s.procs[p]).value.id in s.used
    {
      assert ProcOk(c, s, s.procs[p]);
    }
    hide SparesOthers, ProcOk, PutFits, RowLock, AccountLock, ProviderLock, DraftOf;
  }

  lemma KeepsNames(c: Config, s: State, e: Effect)
    requires NamesUnique(s) && EffectSound(c, s, e)
    ensures NamesUnique(Commit(s, e))
  {
    hide SparesOthers, Gains, ProcOk, RowOk;
  }

  lemma KeepsKeys(c: Config, s: State, e: Effect)
    requires KeysOk(s) && EffectSound(c, s, e)
    ensures KeysOk(Commit(s, e))
  {
    hide SparesOthers, Gains, ProcOk, RowOk;
  }

  /** What another process was told stays true. */
  lemma KeepsProc(c: Config, s: State, e: Effect, q: Pid)
    requires RowsOk(c, s) && EffectSound(c, s, e)
    requires q in s.procs && Some(q) != ActorOf(e.proc) && ProcOk(c, s, s.procs[q])
    ensures ProcOk(c, Commit(s, e), s.procs[q])
  {
    assert Spares(s, e.row, s.procs[q]);
    hide SparesOthers, Gains, RowOk;
  }

  lemma KeepsProcs(c: Config, s: State, e: Effect)
    requires RowsOk(c, s) && ProcsOk(c, s) && EffectSound(c, s, e)
    ensures ProcsOk(c, Commit(s, e))
  {
    forall q | q in Commit(s, e).procs
      ensures ProcOk(c, Commit(s, e), Commit(s, e).procs[q])
    {
      if Some(q) != ActorOf(e.proc) {
        KeepsProc(c, s, e, q);
      }
    }
  }

  // ---- A step moves one process ----

  lemma ActorIsProcess(c: Config, s: State, a: Action)
    requires Enabled(c, s, a)
    ensures var e := Transition(c, s, a).value;
            e.proc.SetProc? && e.proc.p in s.procs ==> a.Go? && a.p == e.proc.p
  {
    if a.Go? {
      match s.procs[a.p]
      case Creator(req, pc) => AdvanceMoves(c, s, a.p, req, pc, a.choice);
      case Deleter(stage) =>
    }
    hide Advance;
  }

  lemma AdvanceMoves(c: Config, s: State, p: Pid, req: Request, pc: Pc, choice: Choice)
    requires Advance(c, s, p, req, pc, choice).Some?
    ensures var change := Advance(c, s, p, req, pc, choice).value.proc;
            change.SetProc? && change.p == p && change.proc.Creator? && change.proc.req == req
  {
    hide LeaseEnd, Live, IsCandidate, LiveOfProvider, LiveOfAccount;
  }

  // ---- Runs ----

  lemma SafeKept(c: Config, s: State, a: Action)
    requires Safe(c, s) && Enabled(c, s, a)
    ensures Safe(c, Next(c, s, a))
  {
    var e := Transition(c, s, a).value;
    TransitionSound(c, s, a);
    hide Transition, EffectSound, Commit, RowsOk, ProcsOk, LocksExclusive, DraftsDistinct, NamesUnique, KeysOk;
    KeepsRows(c, s, e);
    KeepsProcs(c, s, e);
    KeepsLocks(c, s, e);
    KeepsDrafts(c, s, e);
    KeepsNames(c, s, e);
    KeepsKeys(c, s, e);
  }

  /** Every state of every run is safe. */
  lemma {:induction false} RunSafe(c: Config, states: seq<State>, actions: seq<Action>, i: nat)
    requires IsRun(c, states, actions) && Safe(c, states[0]) && i < |states|
    ensures Safe(c, states[i])
  {
    if i == 0 {
    } else {
      RunSafe(c, states, actions, i - 1);
      SafeKept(c, states[i - 1], actions[i - 1]);
    }
  }
}
