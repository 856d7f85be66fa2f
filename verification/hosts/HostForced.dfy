/** The other half of the guard theorems: from every state of a kind, a run that a condition does not exclude goes wrong. */
module HostForced {
  import opened Wrappers
  import opened HostModel
  import opened HostProtocol
  import opened HostSafety
  import opened HostCapacity
  import opened HostTeardown

  predicate StepsTo(c: Config, s: State, a: Action, t: State) {
    Enabled(c, s, a) && t == Next(c, s, a)
  }

  lemma FiveSteps(c: Config, s0: State, a0: Action, s1: State, a1: Action, s2: State, a2: Action, s3: State,
                  a3: Action, s4: State, a4: Action, s5: State)
    requires StepsTo(c, s0, a0, s1) && StepsTo(c, s1, a1, s2) && StepsTo(c, s2, a2, s3)
    requires StepsTo(c, s3, a3, s4) && StepsTo(c, s4, a4, s5)
    ensures IsRun(c, [s0, s1, s2, s3, s4, s5], [a0, a1, a2, a3, a4])
  {
    hide Transition, Commit;
  }

  // ---- The steps of a delete that releases a device ----

  function AfterLock(s: State, p: Pid, id: HostId, mode: Mode): State
    requires id in s.rows
  {
    s.(procs := s.procs[p := Deleter(ReleaseDevice(Target(id, s.rows[id].provider, s.rows[id].name, mode)))])
  }

  function AfterRelease(s: State, p: Pid, t: Target): State
    requires t.id in s.rows
  {
    s.(procs := s.procs[p := Deleter(DeleteVm(t, false))], rows := s.rows[t.id := s.rows[t.id].(hasDevice := false)],
       past := s.past + {t.id})
  }

  function AfterVm(s: State, p: Pid, t: Target): State {
    s.(procs := s.procs[p := Deleter(DeleteRow(t, false))], vms := s.vms - {Vm(t.provider, t.name)})
  }

  function AfterDrop(s: State, p: Pid, t: Target): State {
    s.(procs := s.procs[p := Deleter(Done(true))], rows := s.rows - {t.id},
       keys := map k | k in s.keys && s.keys[k].host != t.id :: s.keys[k])
  }

  lemma LockStep(c: Config, s: State, p: Pid, id: HostId, mode: Mode)
    requires p in s.procs && s.procs[p] == Deleter(LockHost(id, mode)) && id in s.rows && RowFreeFor(s, id, p)
    requires mode == Shed ==> s.rows[id].claimedAt.None?
    requires mode == Reap ==> !Unexpired(s.rows[id], s.now)
    requires s.rows[id].status in VM_BACKED_STATUSES && s.rows[id].hasDevice && c.tailscale
    ensures StepsTo(c, s, Go(p, Plain), AfterLock(s, p, id, mode))
  {
    StatusesSplit(s.rows[id].status);
    hide Advance;
  }

  lemma ReleaseStep(c: Config, s: State, p: Pid, t: Target)
    requires p in s.procs && s.procs[p] == Deleter(ReleaseDevice(t)) && t.id in s.rows && RowFreeFor(s, t.id, p)
    ensures StepsTo(c, s, Go(p, Plain), AfterRelease(s, p, t))
  {
    hide Advance, TakeHost;
  }

  lemma VmStep(c: Config, s: State, p: Pid, t: Target, locked: bool)
    requires p in s.procs && s.procs[p] == Deleter(DeleteVm(t, false))
    ensures StepsTo(c, s, Go(p, Plain), AfterVm(s, p, t))
  {
    hide Advance, TakeHost;
  }

  lemma DropStep(c: Config, s: State, p: Pid, t: Target)
    requires p in s.procs && s.procs[p] == Deleter(DeleteRow(t, false)) && RowFreeFor(s, t.id, p)
    ensures StepsTo(c, s, Go(p, Plain), AfterDrop(s, p, t))
  {
    hide Advance, TakeHost;
  }

  lemma RenewStep(c: Config, s: State, id: HostId, end: Time)
    requires id in s.rows && RowFree(s, id) && Renewable(s.rows[id])
    ensures StepsTo(c, s, Renew(id, Some(end)),
                    s.(rows := s.rows[id := RenewedRow(c, s.rows[id], Some(end), s.now)], past := s.past + {id}))
  {
    hide Advance, Remove, RenewedRow;
  }

  lemma ClaimStep(c: Config, s: State, q: Pid, req: Request, id: HostId, at: Time, createdAt: Time, locked: bool)
    requires q in s.procs && s.procs[q] == Creator(req, ClaimWarm(id, at, createdAt, locked))
    requires id in s.rows && s.rows[id].claimedAt.None? && RowFreeFor(s, id, q)
    ensures StepsTo(c, s, Go(q, Plain),
                    s.(rows := s.rows[id := ClaimedRow(c, req, s.rows[id], at, createdAt, s.now)], past := s.past + {id},
                       procs := s.procs[q := Creator(req, Settle(req, id))]))
  {
    hide Remove, Build, ClaimedRow;
  }

  // ---- The reap ----

  /** A run from `s` in which the delete `p` locks its row first and, without stopping, removes it past its guard. */
  ghost predicate Overlooks(c: Config, s: State, p: Pid, id: HostId, mode: Mode, states: seq<State>, actions: seq<Action>,
                            j: nat)
  {
    && IsRun(c, states, actions) && states[0] == s && 0 < j < |actions|
    && actions[0].Go? && actions[0].p == p && (forall k :: 0 <= k < j ==> actions[k] != Halt(p))
    && actions[j].Go? && actions[j].p == p && p in states[j].procs && DeletesRow(states[j].procs[p])
    && id in states[j].rows && id !in states[j + 1].rows && !GuardHolds(states[j].rows[id], mode, states[j].now)
  }

  lemma ReapOverlooksRenewal(c: Config, s: State, p: Pid, id: HostId) returns (states: seq<State>, actions: seq<Action>)
    requires p in s.procs && s.procs[p] == Deleter(LockHost(id, Reap)) && id in s.rows && RowFree(s, id)
    requires !Unexpired(s.rows[id], s.now) && Renewable(s.rows[id])
    requires s.rows[id].provider in c.maxLifetime ==> s.rows[id].createdAt + c.maxLifetime[s.rows[id].provider] > s.now
    requires s.rows[id].hasDevice && c.tailscale
    ensures Overlooks(c, s, p, id, Reap, states, actions, 4)
  {
    hide RenewedRow, Transition, Commit;
    var t := Target(id, s.rows[id].provider, s.rows[id].name, Reap);
    var s1 := AfterLock(s, p, id, Reap);
    var s2 := AfterRelease(s1, p, t);
    var end := s.now + 1;
    var row := RenewedRow(c, s2.rows[id], Some(end), s2.now);
    var s3 := s2.(rows := s2.rows[id := row], past := s2.past + {id});
    var s4 := AfterVm(s3, p, t);
    var s5 := AfterDrop(s4, p, t);
    LockStep(c, s, p, id, Reap);
    ReleaseStep(c, s1, p, t);
    RenewStep(c, s2, id, end);
    VmStep(c, s3, p, t, false);
    DropStep(c, s4, p, t);
    FiveSteps(c, s, Go(p, Plain), s1, Go(p, Plain), s2, Renew(id, Some(end)), s3, Go(p, Plain), s4, Go(p, Plain), s5);
    states, actions := [s, s1, s2, s3, s4, s5],
                       [Go(p, Plain), Go(p, Plain), Renew(id, Some(end)), Go(p, Plain), Go(p, Plain)];
    RenewedIsLive(c, s2.rows[id], end, s2.now);
    hide IsRun;
  }

  lemma RenewedIsLive(c: Config, row: Row, end: Time, now: Time)
    requires end > now && (row.provider in c.maxLifetime ==> row.createdAt + c.maxLifetime[row.provider] > now)
    ensures Unexpired(RenewedRow(c, row, Some(end), now), now)
  {
  }

  /** The guard of the janitor is exact: of an expired row that a renewal would still accept, a reap can take a live lease
      away if and only if the row has a device to release when it is locked. */
  lemma ReapGuardExactly(c: Config, s: State, p: Pid, id: HostId)
    requires Safe(c, s) && p in s.procs && s.procs[p] == Deleter(LockHost(id, Reap)) && id in s.rows && RowFree(s, id)
    requires !Unexpired(s.rows[id], s.now) && Renewable(s.rows[id])
    requires s.rows[id].provider in c.maxLifetime ==> s.rows[id].createdAt + c.maxLifetime[s.rows[id].provider] > s.now
    ensures (exists states, actions, j :: Overlooks(c, s, p, id, Reap, states, actions, j))
            <==> s.rows[id].hasDevice && c.tailscale
  {
    hide Overlooks;
    if s.rows[id].hasDevice && c.tailscale {
      var states, actions := ReapOverlooksRenewal(c, s, p, id);
    } else {
      GuardIsKept(c, s, p, id, Reap);
    }
  }

  lemma GuardIsKept(c: Config, s: State, p: Pid, id: HostId, mode: Mode)
    requires Safe(c, s) && p in s.procs && s.procs[p] == Deleter(LockHost(id, mode)) && id in s.rows
    requires !(s.rows[id].hasDevice && c.tailscale)
    ensures !exists states, actions, j :: Overlooks(c, s, p, id, mode, states, actions, j)
  {
    forall states, actions, j: nat | Overlooks(c, s, p, id, mode, states, actions, j)
      ensures false
    {
      GuardedDelete(c, states, actions, 0, j, p, id, mode);
    }
  }

  // ---- The shed ----

  lemma ShedOverlooksClaim(c: Config, s: State, p: Pid, id: HostId, q: Pid)
    returns (states: seq<State>, actions: seq<Action>)
    requires p in s.procs && s.procs[p] == Deleter(LockHost(id, Shed)) && id in s.rows && RowFree(s, id)
    requires s.rows[id].claimedAt.None? && s.rows[id].status in VM_BACKED_STATUSES
    requires q in s.procs && s.procs[q].Creator? && s.procs[q].pc.ClaimWarm? && s.procs[q].pc.id == id
    requires s.rows[id].hasDevice && c.tailscale
    ensures Overlooks(c, s, p, id, Shed, states, actions, 4)
  {
    hide ClaimedRow, Transition, Commit;
    var req, pc := s.procs[q].req, s.procs[q].pc;
    var t := Target(id, s.rows[id].provider, s.rows[id].name, Shed);
    var s1 := AfterLock(s, p, id, Shed);
    var s2 := AfterRelease(s1, p, t);
    var row := ClaimedRow(c, req, s2.rows[id], pc.at, pc.createdAt, s2.now);
    var s3 := s2.(rows := s2.rows[id := row], past := s2.past + {id}, procs := s2.procs[q := Creator(req, Settle(req, id))]);
    var s4 := AfterVm(s3, p, t);
    var s5 := AfterDrop(s4, p, t);
    LockStep(c, s, p, id, Shed);
    ReleaseStep(c, s1, p, t);
    ClaimStep(c, s2, q, req, id, pc.at, pc.createdAt, pc.locked);
    VmStep(c, s3, p, t, false);
    DropStep(c, s4, p, t);
    FiveSteps(c, s, Go(p, Plain), s1, Go(p, Plain), s2, Go(q, Plain), s3, Go(p, Plain), s4, Go(p, Plain), s5);
    states, actions := [s, s1, s2, s3, s4, s5], [Go(p, Plain), Go(p, Plain), Go(q, Plain), Go(p, Plain), Go(p, Plain)];
    ClaimedIsClaimed(c, req, s2.rows[id], pc.at, pc.createdAt, s2.now);
    hide IsRun;
  }

  lemma ClaimedIsClaimed(c: Config, req: Request, row: Row, at: Time, createdAt: Time, now: Time)
    ensures ClaimedRow(c, req, row, at, createdAt, now).claimedAt.Some?
  {
  }

  /** The same for the pool: of a warm member that some request is about to claim, a shed can take a claimed host if and
      only if the row has a device to release when it is locked. */
  lemma ShedGuardExactly(c: Config, s: State, p: Pid, id: HostId, q: Pid)
    requires Safe(c, s) && p in s.procs && s.procs[p] == Deleter(LockHost(id, Shed)) && id in s.rows && RowFree(s, id)
    requires s.rows[id].claimedAt.None? && s.rows[id].status in VM_BACKED_STATUSES
    requires q in s.procs && s.procs[q].Creator? && s.procs[q].pc.ClaimWarm? && s.procs[q].pc.id == id
    ensures (exists states, actions, j :: Overlooks(c, s, p, id, Shed, states, actions, j))
            <==> s.rows[id].hasDevice && c.tailscale
  {
    hide Overlooks;
    if s.rows[id].hasDevice && c.tailscale {
      var states, actions := ShedOverlooksClaim(c, s, p, id, q);
    } else {
      GuardIsKept(c, s, p, id, Shed);
    }
  }

  // ---- A create_vm call that outlives its row ----

  lemma FourSteps(c: Config, s0: State, a0: Action, s1: State, a1: Action, s2: State, a2: Action, s3: State, a3: Action,
                  s4: State)
    requires StepsTo(c, s0, a0, s1) && StepsTo(c, s1, a1, s2) && StepsTo(c, s2, a2, s3) && StepsTo(c, s3, a3, s4)
    ensures IsRun(c, [s0, s1, s2, s3, s4], [a0, a1, a2, a3])
  {
    hide Transition, Commit;
  }

  function AtVm(s: State, p: Pid, t: Target): State {
    s.(procs := s.procs[p := Deleter(DeleteVm(t, true))])
  }

  function AtRow(s: State, p: Pid, t: Target): State {
    s.(procs := s.procs[p := Deleter(DeleteRow(t, true))], vms := s.vms - {Vm(t.provider, t.name)})
  }

  function AfterCreate(s: State, q: Pid, req: Request, d: Draft): State {
    s.(procs := s.procs[q := Creator(req, Provision(d, CommitBootstrapping))], vms := s.vms + {Vm(req.provider, d.name)})
  }

  lemma ForceStep(c: Config, s: State, p: Pid, id: HostId)
    requires p in s.procs && s.procs[p] == Deleter(LockHost(id, Reap)) && id in s.rows && RowFreeFor(s, id, p)
    requires !Unexpired(s.rows[id], s.now) && !s.rows[id].hasDevice
    ensures StepsTo(c, s, Go(p, Plain), AtVm(s, p, Target(id, s.rows[id].provider, s.rows[id].name, Reap)))
  {
    hide Advance;
  }

  lemma LockedVmStep(c: Config, s: State, p: Pid, t: Target)
    requires p in s.procs && s.procs[p] == Deleter(DeleteVm(t, true))
    ensures StepsTo(c, s, Go(p, Plain), AtRow(s, p, t))
  {
    hide Advance, TakeHost;
  }

  lemma LockedDropStep(c: Config, s: State, p: Pid, t: Target)
    requires p in s.procs && s.procs[p] == Deleter(DeleteRow(t, true)) && RowFreeFor(s, t.id, p)
    ensures StepsTo(c, s, Go(p, Plain), AfterDrop(s, p, t))
  {
    hide Advance, TakeHost;
  }

  lemma CreateStep(c: Config, s: State, q: Pid, req: Request, d: Draft)
    requires q in s.procs && s.procs[q] == Creator(req, Provision(d, CallProvider))
    ensures StepsTo(c, s, Go(q, Plain), AfterCreate(s, q, req, d))
  {
    hide Remove;
  }

  /** A run from `s` in which the reap `p` takes its row first, no later reap does what this one may have done, and a VM
      without a row is left at the end. */
  ghost predicate Orphans(c: Config, s: State, p: Pid, states: seq<State>, actions: seq<Action>) {
    && IsRun(c, states, actions) && states[0] == s && |actions| > 0
    && actions[0].Go? && actions[0].p == p
    && (forall k :: 1 <= k < |actions| ==> ReapsAbandoned(states[k], actions[k]))
    && !NoOrphan(states[|actions|])
  }

  lemma ReapOrphansCreate(c: Config, s: State, p: Pid, id: HostId, q: Pid)
    returns (states: seq<State>, actions: seq<Action>)
    requires Safe(c, s) && p in s.procs && s.procs[p] == Deleter(LockHost(id, Reap)) && id in s.rows && RowFree(s, id)
    requires !Unexpired(s.rows[id], s.now) && !s.rows[id].hasDevice
    requires q in s.procs && Creates(s.procs[q], id)
    ensures Orphans(c, s, p, states, actions)
  {
    hide Transition, Commit, Safe, NoOrphan;
    var req, d := s.procs[q].req, s.procs[q].pc.draft;
    var t := Target(id, s.rows[id].provider, s.rows[id].name, Reap);
    var s1 := AtVm(s, p, t);
    var s2 := AtRow(s1, p, t);
    var s3 := AfterDrop(s2, p, t);
    var s4 := AfterCreate(s3, q, req, d);
    ForceStep(c, s, p, id);
    LockedVmStep(c, s1, p, t);
    LockedDropStep(c, s2, p, t);
    CreateStep(c, s3, q, req, d);
    FourSteps(c, s, Go(p, Plain), s1, Go(p, Plain), s2, Go(p, Plain), s3, Go(q, Plain), s4);
    states, actions := [s, s1, s2, s3, s4], [Go(p, Plain), Go(p, Plain), Go(p, Plain), Go(q, Plain)];
    NameIsGone(c, s, q, id);
    assert Vm(req.provider, d.name) in s4.vms && !Named(s4, Vm(req.provider, d.name));
    NotAllNamed(s4, Vm(req.provider, d.name));
    hide IsRun;
  }

  lemma NotAllNamed(s: State, vm: Vm)
    requires vm in s.vms && !Named(s, vm)
    ensures !NoOrphan(s)
  {
  }

  lemma NameIsGone(c: Config, s: State, q: Pid, id: HostId)
    requires Safe(c, s) && q in s.procs && Creates(s.procs[q], id) && id in s.rows
    ensures forall other :: other in s.rows && other != id ==> s.rows[other].name != s.procs[q].pc.draft.name
  {
    assert ProcOk(c, s, s.procs[q]);
    hide ProcsOk, RowsOk;
  }

  /** The condition of NoVmIsOrphaned is exact: a reap of an expired row that is still provisioning can orphan a VM if and
      only if the creator's create_vm call is under way when the row is locked. */
  lemma ReapOrphansExactly(c: Config, s: State, p: Pid, id: HostId)
    requires Safe(c, s) && TeardownOk(s)
    requires p in s.procs && s.procs[p] == Deleter(LockHost(id, Reap)) && id in s.rows && RowFree(s, id)
    requires !Unexpired(s.rows[id], s.now) && s.rows[id].status in DELETE_BLOCKED_STATUSES
    ensures (exists states, actions :: Orphans(c, s, p, states, actions))
            <==> exists q :: q in s.procs && Creates(s.procs[q], id)
  {
    if q :| q in s.procs && Creates(s.procs[q], id) {
      StatusesSplit(s.rows[id].status);
      var states, actions := ReapOrphansCreate(c, s, p, id, q);
    } else {
      forall states, actions | Orphans(c, s, p, states, actions)
        ensures false
      {
        forall k | 0 <= k < |actions|
          ensures ReapsAbandoned(states[k], actions[k])
        {
        }
        NoVmIsOrphaned(c, states, actions, |actions|);
      }
    }
    hide Safe, TeardownOk;
  }

  // ---- A lost claim and the limit of its account ----

  function WithPc(s: State, p: Pid, req: Request, pc: Pc): State {
    s.(procs := s.procs[p := Creator(req, pc)])
  }

  function Drafted(c: Config, s: State, req: Request, id: HostId, name: Name): Draft {
    Draft(id, name, s.now, InitialEnd(c, req.lease, s.now))
  }

  function Inserted(s: State, p: Pid, req: Request, d: Draft): State {
    WithPc(s, p, req, Provision(d, CommitNetwork)).(rows := s.rows[d.id := NewRow(req, d)], past := s.past + {d.id})
  }

  predicate ClaimIsLost(s: State, id: HostId) {
    id !in s.rows || s.rows[id].claimedAt.Some?
  }

  lemma LoseStep(c: Config, s: State, p: Pid, req: Request, pc: Pc)
    requires p in s.procs && s.procs[p] == Creator(req, pc) && pc.ClaimWarm? && ClaimIsLost(s, pc.id)
    ensures StepsTo(c, s, Go(p, Plain), WithPc(s, p, req, MintHost(false)))
  {
    hide Remove, Build;
  }

  lemma MintStep(c: Config, s: State, p: Pid, req: Request, locked: bool, id: HostId, name: Name)
    requires p in s.procs && s.procs[p] == Creator(req, MintHost(locked)) && id !in s.used
    ensures StepsTo(c, s, Go(p, Fresh(id, name)),
                    WithPc(s, p, req, CountProvider(Drafted(c, s, req, id, name), locked)).(used := s.used + {id}))
  {
    hide Remove, Build;
  }

  lemma UnlimitedStep(c: Config, s: State, p: Pid, req: Request, d: Draft, locked: bool)
    requires p in s.procs && s.procs[p] == Creator(req, CountProvider(d, locked)) && req.provider !in c.hostLimits
    ensures StepsTo(c, s, Go(p, Plain), WithPc(s, p, req, InsertRow(d, locked, false)))
  {
    hide Remove, Build;
  }

  lemma AdmitStep(c: Config, s: State, q: Pid, req: Request)
    requires q in s.procs && s.procs[q] == Creator(req, CountAccount) && AccountLimited(c, req)
    requires AccountFree(s, req.account.value) && |LiveOfAccount(s, req.account.value)| < c.accountLimit.value
    requires AfterCount(c, req, true) == MintHost(true)
    ensures StepsTo(c, s, Go(q, Plain), WithPc(s, q, req, MintHost(true)))
  {
    hide Remove, Build, LiveOfAccount;
  }

  lemma InsertStepForced(c: Config, s: State, p: Pid, req: Request, d: Draft, locked: bool)
    requires p in s.procs && s.procs[p] == Creator(req, InsertRow(d, locked, false)) && req.tick.None?
    requires forall id :: id in s.rows ==> s.rows[id].name != d.name
    ensures StepsTo(c, s, Go(p, Plain), Inserted(s, p, req, d))
  {
    hide Remove, Build, NewRow;
  }

  /** A run of creates takes no row away and lets no time pass, so it revives nothing. */
  lemma GrowsQuietly(s: State, t: State)
    requires t.now == s.now && forall id :: id in s.rows && id in t.rows ==> t.rows[id] == s.rows[id]
    ensures NothingRevives(s, t)
  {
  }

  lemma LiveGrows(c: Config, s: State, t: State, req: Request, d: Draft, a: Account)
    requires t.now == s.now && d.id !in s.rows && t.rows == s.rows[d.id := NewRow(req, d)]
    requires req.account == Some(a) && d.initial > s.now
    ensures |LiveOfAccount(t, a)| == |LiveOfAccount(s, a)| + 1
  {
    assert LiveOfAccount(t, a) == LiveOfAccount(s, a) + {d.id};
  }

  lemma InitialIsAhead(c: Config, lease: Lease, now: Time)
    ensures InitialEnd(c, lease, now) > now
  {
  }

  /** A run from `s` whose first step is the claim of `p`, in which no later claim of the account is lost and no lapsed row
      revives, and which ends with the account over its limit. */
  ghost predicate Exceeds(c: Config, s: State, p: Pid, a: Account, states: seq<State>, actions: seq<Action>)
    requires c.accountLimit.Some?
  {
    && IsRun(c, states, actions) && states[0] == s && |actions| > 0 && actions[0].Go? && actions[0].p == p
    && (forall k :: 0 <= k < |actions| ==> NothingRevives(states[k], states[k + 1]))
    && (forall k :: 1 <= k < |actions| ==> ClaimsWin(states[k], actions[k], a))
    && |LiveOfAccount(states[|actions|], a)| > c.accountLimit.value
  }

  /** A claim under the lock of its account, beside a rival that waits for that lock to count, with one place left. */
  ghost predicate ClaimBesideRival(c: Config, s: State, p: Pid, q: Pid, a: Account) {
    && p in s.procs && q in s.procs && s.procs[p].Creator? && s.procs[q].Creator?
    && s.procs[p].pc.ClaimWarm? && s.procs[p].pc.locked && s.procs[q].pc.CountAccount?
    && Counts(c, s.procs[p].req, a) && Counts(c, s.procs[q].req, a)
    && |LiveOfAccount(s, a)| + 1 == c.accountLimit.value
    && s.procs[p].req.provider !in c.hostLimits && s.procs[q].req.provider !in c.hostLimits
    && AfterCount(c, s.procs[q].req, true) == MintHost(true)
  }

  /** No lapsed row revives in the run, and from step `n` on no claim of the account is lost. */
  ghost predicate Tame(states: seq<State>, actions: seq<Action>, a: Account, n: nat)
    requires |states| == |actions| + 1
  {
    && (forall k :: 0 <= k < |actions| ==> NothingRevives(states[k], states[k + 1]))
    && (forall k :: n <= k < |actions| ==> ClaimsWin(states[k], actions[k], a))
  }

  /** The loser goes on without the lock, up to its insert. */
  lemma LoserDrafts(c: Config, s: State, p: Pid, a: Account, x: HostId, nx: Name)
    returns (states: seq<State>, actions: seq<Action>, d: Draft)
    requires p in s.procs && s.procs[p].Creator? && s.procs[p].pc.ClaimWarm? && ClaimIsLost(s, s.procs[p].pc.id)
    requires s.procs[p].req.provider !in c.hostLimits && x !in s.used
    ensures IsRun(c, states, actions) && |actions| == 3 && states[0] == s && actions[0] == Go(p, Plain)
    ensures Tame(states, actions, a, 1) && d.id == x && d.name == nx && d.initial > s.now
    ensures states[3] == WithPc(s, p, s.procs[p].req, InsertRow(d, false, false)).(used := s.used + {x})
  {
    var req := s.procs[p].req;
    hide Transition, Commit, NothingRevives, InitialEnd;
    InitialIsAhead(c, req.lease, s.now);
    var s1 := WithPc(s, p, req, MintHost(false));
    LoseStep(c, s, p, req, s.procs[p].pc);
    d := Drafted(c, s1, req, x, nx);
    var s2 := WithPc(s1, p, req, CountProvider(d, false)).(used := s1.used + {x});
    MintStep(c, s1, p, req, false, x, nx);
    var s3 := WithPc(s2, p, req, InsertRow(d, false, false));
    UnlimitedStep(c, s2, p, req, d, false);
    ThreeSteps(c, s, Go(p, Plain), s1, Go(p, Fresh(x, nx)), s2, Go(p, Plain), s3);
    states, actions := [s, s1, s2, s3], [Go(p, Plain), Go(p, Fresh(x, nx)), Go(p, Plain)];
    GrowsQuietly(s, s1);
    GrowsQuietly(s1, s2);
    GrowsQuietly(s2, s3);
    hide IsRun, StepsTo;
  }

  /** The rival counts before the insert of the loser, which takes the last place. */
  lemma RivalCountsFirst(c: Config, s: State, p: Pid, q: Pid, a: Account, d: Draft)
    returns (states: seq<State>, actions: seq<Action>)
    requires p in s.procs && q in s.procs && p != q && s.procs[p].Creator? && s.procs[p].pc == InsertRow(d, false, false)
    requires s.procs[q].Creator? && s.procs[q].pc.CountAccount?
    requires Counts(c, s.procs[p].req, a) && Counts(c, s.procs[q].req, a) && AccountFree(s, a)
    requires |LiveOfAccount(s, a)| + 1 == c.accountLimit.value && AfterCount(c, s.procs[q].req, true) == MintHost(true)
    requires d.id !in s.rows && d.initial > s.now && forall id :: id in s.rows ==> s.rows[id].name != d.name
    ensures IsRun(c, states, actions) && |actions| == 2 && states[0] == s && Tame(states, actions, a, 0)
    ensures var t := states[2];
            && t.now == s.now && t.used == s.used && t.rows == s.rows[d.id := NewRow(s.procs[p].req, d)]
            && |LiveOfAccount(t, a)| == c.accountLimit.value
            && q in t.procs && t.procs[q] == Creator(s.procs[q].req, MintHost(true))
  {
    var reqP, reqQ := s.procs[p].req, s.procs[q].req;
    hide Transition, Commit, LiveOfAccount, NewRow, AccountFree, NothingRevives;
    var s1 := WithPc(s, q, reqQ, MintHost(true));
    AdmitStep(c, s, q, reqQ);
    var s2 := Inserted(s1, p, reqP, d);
    InsertStepForced(c, s1, p, reqP, d, false);
    TwoSteps(c, s, Go(q, Plain), s1, Go(p, Plain), s2);
    states, actions := [s, s1, s2], [Go(q, Plain), Go(p, Plain)];
    SameRows(s, s1, a);
    LiveGrows(c, s1, s2, reqP, d, a);
    GrowsQuietly(s, s1);
    GrowsQuietly(s1, s2);
    hide IsRun, StepsTo;
  }

  /** The insert of a creator that was admitted, as a state. */
  function AfterInsert(c: Config, s: State, q: Pid, req: Request, y: HostId, ny: Name): State {
    Inserted(s.(used := s.used + {y}), q, req, Drafted(c, s, req, y, ny))
  }

  lemma AdmittedRuns(c: Config, s: State, q: Pid, req: Request, y: HostId, ny: Name)
    returns (states: seq<State>, actions: seq<Action>)
    requires q in s.procs && s.procs[q] == Creator(req, MintHost(true))
    requires req.tick.None? && req.provider !in c.hostLimits && y !in s.used
    requires forall id :: id in s.rows ==> s.rows[id].name != ny
    ensures IsRun(c, states, actions) && |states| == 4 && states[0] == s
    ensures states[1].now == states[2].now == s.now && states[1].rows == states[2].rows == s.rows
    ensures states[3] == AfterInsert(c, s, q, req, y, ny)
    ensures forall k :: 0 <= k < 3 ==> q in states[k].procs && states[k].procs[q].Creator? && !states[k].procs[q].pc.ClaimWarm?
    ensures actions == [Go(q, Fresh(y, ny)), Go(q, Plain), Go(q, Plain)]
  {
    hide Transition, Commit, NewRow, Drafted;
    var d := Drafted(c, s, req, y, ny);
    DraftedOf(c, s, req, y, ny);
    var s1 := WithPc(s, q, req, CountProvider(d, true)).(used := s.used + {y});
    MintStep(c, s, q, req, true, y, ny);
    var s2 := WithPc(s1, q, req, InsertRow(d, true, false));
    UnlimitedStep(c, s1, q, req, d, true);
    var s3 := Inserted(s2, q, req, d);
    InsertStepForced(c, s2, q, req, d, true);
    ThreeSteps(c, s, Go(q, Fresh(y, ny)), s1, Go(q, Plain), s2, Go(q, Plain), s3);
    states, actions := [s, s1, s2, s3], [Go(q, Fresh(y, ny)), Go(q, Plain), Go(q, Plain)];
  }

  lemma DraftedOf(c: Config, s: State, req: Request, y: HostId, ny: Name)
    ensures Drafted(c, s, req, y, ny).id == y && Drafted(c, s, req, y, ny).name == ny
    ensures Drafted(c, s, req, y, ny).createdAt == s.now && Drafted(c, s, req, y, ny).initial > s.now
  {
  }

  /** A creator that was admitted inserts its host. */
  lemma AdmittedInserts(c: Config, s: State, q: Pid, a: Account, y: HostId, ny: Name)
    returns (states: seq<State>, actions: seq<Action>)
    requires q in s.procs && s.procs[q].Creator? && s.procs[q].pc == MintHost(true) && Counts(c, s.procs[q].req, a)
    requires s.procs[q].req.provider !in c.hostLimits && y !in s.used && y !in s.rows
    requires forall id :: id in s.rows ==> s.rows[id].name != ny
    ensures IsRun(c, states, actions) && |actions| == 3 && states[0] == s && Tame(states, actions, a, 0)
    ensures |LiveOfAccount(states[3], a)| == |LiveOfAccount(s, a)| + 1
  {
    hide Transition, Commit, LiveOfAccount, NewRow, NothingRevives, Drafted, StepsTo;
    var req := s.procs[q].req;
    states, actions := AdmittedRuns(c, s, q, req, y, ny);
    DraftedOf(c, s, req, y, ny);
    LiveGrows(c, s, states[3], req, Drafted(c, s, req, y, ny), a);
    hide IsRun;
    GrowsQuietly(s, states[1]);
    GrowsQuietly(states[1], states[2]);
    GrowsQuietly(states[2], states[3]);
  }

  lemma LostClaimOverruns(c: Config, s: State, p: Pid, q: Pid, a: Account, x: HostId, nx: Name, y: HostId, ny: Name)
    returns (states: seq<State>, actions: seq<Action>)
    requires Safe(c, s) && ClaimBesideRival(c, s, p, q, a) && ClaimIsLost(s, s.procs[p].pc.id)
    requires x !in s.used && y !in s.used && x != y && nx != ny
    requires forall id :: id in s.rows ==> s.rows[id].name != nx && s.rows[id].name != ny
    ensures Exceeds(c, s, p, a, states, actions)
  {
    hide Safe, LiveOfAccount, AccountFree, NothingRevives, ClaimsWin, IsRun, Tame;
    RowsAreUsed(c, s);
    LockIsAlone(c, s, p, a);
    var first, acts, d := LoserDrafts(c, s, p, a, x, nx);
    RunLength(c, first, acts);
    SameRows(s, first[3], a);
    LockIsFree(s, first[3], p, a);
    var second, acts2 := RivalCountsFirst(c, first[3], p, q, a, d);
    RunLength(c, second, acts2);
    NewRowName(s.procs[p].req, d);
    var third, acts3 := AdmittedInserts(c, second[2], q, a, y, ny);
    RunLength(c, third, acts3);
    JoinTame(c, first, acts, second, acts2, a, 1);
    JoinTame(c, first + second[1..], acts + acts2, third, acts3, a, 1);
    states, actions := first + second[1..] + third[1..], acts + acts2 + acts3;
    TameIsExceeding(c, s, p, a, states, actions);
  }

  lemma TameIsExceeding(c: Config, s: State, p: Pid, a: Account, states: seq<State>, actions: seq<Action>)
    requires IsRun(c, states, actions) && Tame(states, actions, a, 1) && |actions| > 0
    requires states[0] == s && actions[0] == Go(p, Plain) && c.accountLimit.Some?
    requires |LiveOfAccount(states[|actions|], a)| > c.accountLimit.value
    ensures Exceeds(c, s, p, a, states, actions)
  {
    hide NothingRevives, ClaimsWin;
  }

  lemma RunLength(c: Config, states: seq<State>, actions: seq<Action>)
    requires IsRun(c, states, actions)
    ensures |states| == |actions| + 1
  {
  }

  lemma TwoSteps(c: Config, s0: State, a0: Action, s1: State, a1: Action, s2: State)
    requires StepsTo(c, s0, a0, s1) && StepsTo(c, s1, a1, s2)
    ensures IsRun(c, [s0, s1, s2], [a0, a1])
  {
    hide Transition, Commit;
  }

  lemma JoinTame(c: Config, states: seq<State>, actions: seq<Action>, more: seq<State>, rest: seq<Action>, a: Account,
                 n: nat)
    requires IsRun(c, states, actions) && IsRun(c, more, rest) && states[|actions|] == more[0]
    requires Tame(states, actions, a, n) && Tame(more, rest, a, 0) && n <= |actions|
    ensures IsRun(c, states + more[1..], actions + rest)
    ensures Tame(states + more[1..], actions + rest, a, n)
    ensures (states + more[1..])[|actions + rest|] == more[|rest|]
  {
    hide Transition, Commit, Tame;
    JoinRuns(c, states, actions, more, rest);
    TameOn(states, actions, more, rest, a, n);
  }

  lemma TameOn(states: seq<State>, actions: seq<Action>, more: seq<State>, rest: seq<Action>, a: Account, n: nat)
    requires |states| == |actions| + 1 && |more| == |rest| + 1 && states[|actions|] == more[0]
    requires Tame(states, actions, a, n) && Tame(more, rest, a, 0) && n <= |actions|
    ensures Tame(states + more[1..], actions + rest, a, n)
  {
    hide NothingRevives, ClaimsWin;
    var all, acts := states + more[1..], actions + rest;
    forall k | 0 <= k < |acts|
      ensures NothingRevives(all[k], all[k + 1]) && (n <= k ==> ClaimsWin(all[k], acts[k], a))
    {
      if k >= |actions| {
        assert all[k] == more[k - |actions|] && all[k + 1] == more[k - |actions| + 1] && acts[k] == rest[k - |actions|];
      }
    }
  }

  lemma NewRowName(req: Request, d: Draft)
    ensures NewRow(req, d).name == d.name
  {
  }

  lemma SameRows(s: State, t: State, a: Account)
    requires t.rows == s.rows && t.now == s.now
    ensures LiveOfAccount(t, a) == LiveOfAccount(s, a)
  {
  }

  lemma RowsAreUsed(c: Config, s: State)
    requires Safe(c, s)
    ensures forall id :: id in s.rows ==> id in s.used
  {
    hide ProcsOk, LocksExclusive, RowOk;
  }

  lemma LockIsAlone(c: Config, s: State, p: Pid, a: Account)
    requires Safe(c, s) && p in s.procs && AccountLock(s.procs[p]) == Some(a)
    ensures forall r :: r in s.procs && r != p ==> AccountLock(s.procs[r]) != Some(a)
  {
    hide ProcsOk, RowsOk, AccountLock;
  }

  lemma LockIsFree(s: State, t: State, p: Pid, a: Account)
    requires forall r :: r in s.procs && r != p ==> AccountLock(s.procs[r]) != Some(a)
    requires p in t.procs && AccountLock(t.procs[p]) != Some(a) && forall r :: r in t.procs && r != p ==> r in s.procs && t.procs[r] == s.procs[r]
    ensures AccountFree(t, a)
  {
    hide AccountLock;
  }

  lemma ThreeSteps(c: Config, s0: State, a0: Action, s1: State, a1: Action, s2: State, a2: Action, s3: State)
    requires StepsTo(c, s0, a0, s1) && StepsTo(c, s1, a1, s2) && StepsTo(c, s2, a2, s3)
    ensures IsRun(c, [s0, s1, s2, s3], [a0, a1, a2])
  {
    hide Transition, Commit;
  }

  lemma JoinRuns(c: Config, states: seq<State>, actions: seq<Action>, more: seq<State>, rest: seq<Action>)
    requires IsRun(c, states, actions) && IsRun(c, more, rest) && states[|actions|] == more[0]
    ensures IsRun(c, states + more[1..], actions + rest)
  {
    hide Transition, Commit;
    var all, acts := states + more[1..], actions + rest;
    forall i | 0 <= i < |acts|
      ensures Enabled(c, all[i], acts[i]) && all[i + 1] == Next(c, all[i], acts[i])
    {
      if i >= |actions| {
        assert all[i] == more[i - |actions|] && acts[i] == rest[i - |actions|];
      }
    }
  }

  /** The condition of AccountCapacity is exact: a claim under its account's lock, with one place left and a rival waiting
      to count, can take the account over its limit if and only if the claim is lost. */
  lemma AccountOverrunExactly(c: Config, s: State, p: Pid, q: Pid, a: Account, x: HostId, nx: Name, y: HostId, ny: Name)
    requires Safe(c, s) && c.accountLimit.Some? && WithinAccount(c, s, a) && ClaimBesideRival(c, s, p, q, a)
    requires x !in s.used && y !in s.used && x != y && nx != ny
    requires forall id :: id in s.rows ==> s.rows[id].name != nx && s.rows[id].name != ny
    ensures (exists states, actions :: Exceeds(c, s, p, a, states, actions)) <==> ClaimIsLost(s, s.procs[p].pc.id)
  {
    if ClaimIsLost(s, s.procs[p].pc.id) {
      var states, actions := LostClaimOverruns(c, s, p, q, a, x, nx, y, ny);
    } else {
      hide Safe, WithinAccount, NothingRevives, LiveOfAccount;
      forall states, actions | Exceeds(c, s, p, a, states, actions)
        ensures false
      {
        forall k | 0 <= k < |actions|
          ensures ClaimsWin(states[k], actions[k], a)
        {
        }
        AccountCapacity(c, states, actions, a, |actions|);
      }
    }
  }
}
