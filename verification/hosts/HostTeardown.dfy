/** Teardown: no VM without a row, and no maintenance delete past its guard. */
module HostTeardown {
  import opened Wrappers
  import opened HostModel
  import opened HostProtocol
  import opened HostSafety

  ghost predicate Named(s: State, vm: Vm) {
    exists id :: id in s.rows && s.rows[id].provider == vm.provider && s.rows[id].name == vm.name
  }

  ghost predicate NoOrphan(s: State) {
    forall vm :: vm in s.vms ==> Named(s, vm)
  }

  /** A creator whose VM may still appear. */
  predicate BeforeVm(proc: Proc, id: HostId) {
    && proc.Creator? && proc.pc.Provision? && proc.pc.draft.id == id
    && (proc.pc.phase.CommitNetwork? || proc.pc.phase.CommitVm? || proc.pc.phase.CallProvider?)
  }

  predicate CallsProvider(proc: Proc) {
    proc.Creator? && proc.pc.Provision? && proc.pc.phase.CallProvider?
  }

  /** A creator whose call of create_vm is under way. */
  predicate Creates(proc: Proc, id: HostId) {
    CallsProvider(proc) && proc.pc.draft.id == id
  }

  predicate DeletesRow(proc: Proc) {
    proc.Deleter? && proc.stage.DeleteRow?
  }

  predicate Targets(proc: Proc, id: HostId) {
    proc.Deleter? && HasTarget(proc.stage) && proc.stage.target.id == id
  }

  /** No VM can appear for a row that is being torn down: no create_vm is under way, and a creator that would still call
      it waits for the row lock of the delete, and then finds no row. */
  predicate SettledFor(s: State, tearer: Proc, creator: Proc, id: HostId)
    requires Targets(tearer, id)
  {
    && !Creates(creator, id)
    && (tearer.stage.ReleaseDevice? ==> !BeforeVm(creator, id))
    && (BeforeVm(creator, id) && id in s.rows ==> RowLock(tearer) == Some(id))
  }

  ghost predicate TargetsSettled(s: State) {
    forall p, q, id :: p in s.procs && q in s.procs && Targets(s.procs[p], id) ==> SettledFor(s, s.procs[p], s.procs[q], id)
  }

  /** A host has a device only once it has a VM. */
  ghost predicate DevicesOk(s: State) {
    forall id :: id in s.rows && s.rows[id].hasDevice ==> s.rows[id].status in VM_BACKED_STATUSES
  }

  ghost predicate TeardownOk(s: State) {
    && (forall p :: p in s.procs && CallsProvider(s.procs[p]) ==> s.procs[p].pc.draft.id in s.rows)
    && TargetsSettled(s) && DevicesOk(s)
    && (forall p :: p in s.procs && DeletesRow(s.procs[p]) && s.procs[p].stage.target.id in s.rows ==>
          Vm(s.procs[p].stage.target.provider, s.procs[p].stage.target.name) !in s.vms)
    && NoOrphan(s)
  }

  /** The janitor takes no row for which a create_vm call is under way. */
  ghost predicate ReapsAbandoned(s: State, a: Action) {
    a.Go? && a.p in s.procs && s.procs[a.p].Deleter? && s.procs[a.p].stage.LockHost?
    && s.procs[a.p].stage.mode == Reap && s.procs[a.p].stage.id in s.rows
    && s.rows[s.procs[a.p].stage.id].status in DELETE_BLOCKED_STATUSES ==>
      forall q :: q in s.procs ==> !Creates(s.procs[q], s.procs[a.p].stage.id)
  }

  /** A delete keeps its target and its row lock, until it commits the cleared device. */
  predicate GoesOnTearing(was: Proc, next: Proc, id: HostId) {
    && Targets(was, id) && Targets(next, id) && !next.stage.ReleaseDevice?
    && (RowLock(next) == RowLock(was) || was.stage.ReleaseDevice?)
  }

  /** How one step may change VMs, rows and the processes that matter for teardown. */
  ghost predicate TeardownStep(s: State, e: Effect) {
    && (e.vm.AddVm? ==>
          && e.proc.SetProc? && e.proc.p in s.procs && e.row.KeepRows?
          && CallsProvider(s.procs[e.proc.p])
          && e.vm.vm == Vm(s.procs[e.proc.p].req.provider, s.procs[e.proc.p].pc.draft.name))
    && (e.row.DropRow? ==>
          && e.proc.SetProc? && e.proc.p in s.procs && e.vm.KeepVms?
          && DeletesRow(s.procs[e.proc.p])
          && s.procs[e.proc.p].stage.target.id == e.row.gone)
    && (e.proc.SetProc? && e.proc.proc.Creator? && e.proc.proc.pc.Provision? ==>
          var d := e.proc.proc.pc.draft;
          && (CallsProvider(e.proc.proc) ==> d.id in s.rows && e.row.PutRow? && e.row.id == d.id)
          && (BeforeVm(e.proc.proc, d.id) ==>
                && e.proc.p in s.procs
                && (BeforeVm(s.procs[e.proc.p], d.id)
                    || (s.procs[e.proc.p].Creator? && s.procs[e.proc.p].pc.InsertRow?
                        && s.procs[e.proc.p].pc.draft == d))))
    && (e.proc.SetProc? && e.proc.proc.Deleter? && HasTarget(e.proc.proc.stage) ==>
          var t := e.proc.proc.stage.target;
          && e.proc.p in s.procs && s.procs[e.proc.p].Deleter?
          && (GoesOnTearing(s.procs[e.proc.p], e.proc.proc, t.id)
              || (s.procs[e.proc.p].stage.LockHost? && s.procs[e.proc.p].stage.id == t.id && t.id in s.rows
                  && (s.rows[t.id].status in VM_BACKED_STATUSES || s.procs[e.proc.p].stage.mode == Reap)
                  && RowLock(e.proc.proc) == Some(t.id)
                  && (e.proc.proc.stage.ReleaseDevice? ==> s.rows[t.id].hasDevice)))
          && (e.proc.proc.stage.DeleteRow? ==> e.row.KeepRows? && e.vm == DropVm(Vm(t.provider, t.name))))
  }

  lemma BuildTeardown(c: Config, s: State, p: Pid, req: Request, pc: Pc, choice: Choice)
    requires p in s.procs && s.procs[p] == Creator(req, pc) && pc.Provision?
    requires Build(c, s, p, req, pc.draft, pc.phase, choice).Some?
    ensures TeardownStep(s, Build(c, s, p, req, pc.draft, pc.phase, choice).value)
  {
    hide LeaseEnd, RowFreeFor;
  }

  lemma AdvanceTeardown(c: Config, s: State, p: Pid, req: Request, pc: Pc, choice: Choice)
    requires p in s.procs && s.procs[p] == Creator(req, pc)
    requires Advance(c, s, p, req, pc, choice).Some?
    ensures TeardownStep(s, Advance(c, s, p, req, pc, choice).value)
  {
    if pc.Provision? {
      BuildTeardown(c, s, p, req, pc, choice);
      hide Build, TeardownStep;
    } else {
      hide LeaseEnd, Live, IsCandidate, LiveOfProvider, LiveOfAccount, RowFreeFor, Build;
    }
  }

  /** The two sets of the delete path split the six statuses, so no status skips the VM. */
  lemma StatusesSplit(status: Status)
    ensures status in DELETE_BLOCKED_STATUSES <==> status.Provisioning? || status.CreatingNetwork? || status.CreatingVm?
    ensures status in VM_BACKED_STATUSES <==> status !in DELETE_BLOCKED_STATUSES
  {
    match status
    case Provisioning => assert status in DELETE_BLOCKED_STATUSES;
    case CreatingNetwork => assert status in DELETE_BLOCKED_STATUSES;
    case CreatingVm => assert status in DELETE_BLOCKED_STATUSES;
    case _ => assert status in VM_BACKED_STATUSES;
  }

  lemma RemoveTeardown(c: Config, s: State, p: Pid, stage: Stage, choice: Choice)
    requires p in s.procs && s.procs[p] == Deleter(stage)
    requires Remove(c, s, p, stage, choice).Some?
    ensures TeardownStep(s, Remove(c, s, p, stage, choice).value)
  {
    if stage.LockHost? && stage.id in s.rows {
      StatusesSplit(s.rows[stage.id].status);
    }
  }

  lemma TransitionTeardown(c: Config, s: State, a: Action)
    requires Enabled(c, s, a)
    ensures TeardownStep(s, Transition(c, s, a).value)
  {
    if a.Go? {
      match s.procs[a.p]
      case Creator(req, pc) => AdvanceTeardown(c, s, a.p, req, pc, a.choice);
      case Deleter(stage) => RemoveTeardown(c, s, a.p, stage, a.choice);
      hide Advance, Remove, TeardownStep;
    } else {
      hide Advance, Remove, LeaseEnd, IsPlan;
    }
  }

  /** The step takes a row only when no VM can appear for it any more. */
  ghost predicate TakesSettledRow(s: State, e: Effect) {
    e.proc.SetProc? && e.proc.proc.Deleter? && HasTarget(e.proc.proc.stage) ==>
      var id := e.proc.proc.stage.target.id;
      || (e.proc.p in s.procs && GoesOnTearing(s.procs[e.proc.p], e.proc.proc, id))
      || (RowLock(e.proc.proc) == Some(id)
          && forall q :: q in s.procs ==>
               !Creates(s.procs[q], id) && (e.proc.proc.stage.ReleaseDevice? ==> !BeforeVm(s.procs[q], id)))
  }

  /** A VM-backed status means that the creator is past create_vm. */
  lemma SettledByStatus(c: Config, s: State, id: HostId, q: Pid)
    requires ProcsOk(c, s) && q in s.procs && id in s.rows && s.rows[id].status in VM_BACKED_STATUSES
    ensures !BeforeVm(s.procs[q], id)
  {
    assert ProcOk(c, s, s.procs[q]);
    StatusesSplit(s.rows[id].status);
  }

  lemma TransitionTakesSettled(c: Config, s: State, a: Action)
    requires ProcsOk(c, s) && DevicesOk(s) && Enabled(c, s, a) && ReapsAbandoned(s, a)
    ensures TakesSettledRow(s, Transition(c, s, a).value)
  {
    var e := Transition(c, s, a).value;
    TransitionTeardown(c, s, a);
    ActorIsProcess(c, s, a);
    hide Transition, GoesOnTearing, RowLock;
    if e.proc.SetProc? && e.proc.proc.Deleter? && HasTarget(e.proc.proc.stage) {
      var id := e.proc.proc.stage.target.id;
      if !GoesOnTearing(s.procs[e.proc.p], e.proc.proc, id) {
        StatusesSplit(s.rows[id].status);
        forall q | q in s.procs && s.rows[id].status in VM_BACKED_STATUSES
          ensures !BeforeVm(s.procs[q], id)
        {
          SettledByStatus(c, s, id, q);
        }
      }
    }
    hide ProcsOk, TeardownStep;
  }

  // ---- Devices come after VMs ----

  predicate DeviceStep(e: Effect) {
    e.row.PutRow? && e.row.row.hasDevice ==> e.row.row.status in VM_BACKED_STATUSES
  }

  lemma BuildDevices(c: Config, s: State, p: Pid, req: Request, pc: Pc, choice: Choice)
    requires CreatorOk(c, s, req, pc) && DevicesOk(s) && pc.Provision?
    requires Build(c, s, p, req, pc.draft, pc.phase, choice).Some?
    ensures DeviceStep(Build(c, s, p, req, pc.draft, pc.phase, choice).value)
  {
    hide LeaseEnd, RowFreeFor;
    if pc.draft.id in s.rows {
      StatusesSplit(s.rows[pc.draft.id].status);
    }
  }

  lemma AdvanceDevices(c: Config, s: State, p: Pid, req: Request, pc: Pc, choice: Choice)
    requires CreatorOk(c, s, req, pc) && DevicesOk(s) && Advance(c, s, p, req, pc, choice).Some?
    ensures DeviceStep(Advance(c, s, p, req, pc, choice).value)
  {
    hide Build, LeaseEnd, Live, IsCandidate, LiveOfProvider, LiveOfAccount, RowFreeFor, StatusFits, DraftFits;
    if pc.Provision? {
      BuildDevices(c, s, p, req, pc, choice);
    }
  }

  lemma TransitionDevices(c: Config, s: State, a: Action)
    requires ProcsOk(c, s) && DevicesOk(s) && Enabled(c, s, a)
    ensures DeviceStep(Transition(c, s, a).value)
  {
    hide Advance, LeaseEnd, IsPlan, IsShedList, ProcsOk, CreatorOk;
    if a.Go? && s.procs[a.p].Creator? {
      ProcOf(c, s, a.p);
      AdvanceDevices(c, s, a.p, s.procs[a.p].req, s.procs[a.p].pc, a.choice);
    }
  }

  lemma ProcOf(c: Config, s: State, p: Pid)
    requires ProcsOk(c, s) && p in s.procs
    ensures ProcOk(c, s, s.procs[p])
  {
  }

  lemma KeepsDevices(s: State, e: Effect)
    requires DevicesOk(s) && DeviceStep(e)
    ensures DevicesOk(Commit(s, e))
  {
  }

  lemma KeepsRowsOfCreators(c: Config, s: State, e: Effect)
    requires RowsOk(c, s) && TeardownOk(s) && EffectSound(c, s, e) && TeardownStep(s, e)
    ensures forall p :: p in Commit(s, e).procs && CallsProvider(Commit(s, e).procs[p]) ==>
              Commit(s, e).procs[p].pc.draft.id in Commit(s, e).rows
  {
    hide Gains, SparesOthers, ProcOk, RowOk, NoOrphan, EffectSound;
    var t := Commit(s, e);
    forall p | p in t.procs && CallsProvider(t.procs[p])
      ensures t.procs[p].pc.draft.id in t.rows
    {
      if p in s.procs && t.procs[p] == s.procs[p] && e.row.DropRow? {
        assert Targets(s.procs[e.proc.p], e.row.gone);
        assert SettledFor(s, s.procs[e.proc.p], s.procs[p], e.row.gone);
      }
    }
  }

  lemma KeepsTargetsSettled(c: Config, s: State, e: Effect)
    requires ProcsOk(c, s) && TeardownOk(s) && TeardownStep(s, e) && TakesSettledRow(s, e) && EffectSound(c, s, e)
    ensures TargetsSettled(Commit(s, e))
  {
    var t := Commit(s, e);
    hide ProcsOk, TeardownOk, TakesSettledRow, TeardownStep, EffectSound, SettledFor;
    forall p, q, id | p in t.procs && q in t.procs && Targets(t.procs[p], id)
      ensures SettledFor(t, t.procs[p], t.procs[q], id)
    {
      KeepsSettledFor(c, s, e, p, q, id);
    }
  }

  lemma KeepsSettledFor(c: Config, s: State, e: Effect, p: Pid, q: Pid, id: HostId)
    requires ProcsOk(c, s) && TeardownOk(s) && TeardownStep(s, e) && TakesSettledRow(s, e) && EffectSound(c, s, e)
    requires p in Commit(s, e).procs && q in Commit(s, e).procs && Targets(Commit(s, e).procs[p], id)
    ensures SettledFor(Commit(s, e), Commit(s, e).procs[p], Commit(s, e).procs[q], id)
  {
    var t := Commit(s, e);
    hide NoOrphan, DevicesOk, Gains, RowOk;
    if e.proc.SetProc? && q == e.proc.p {
      if BeforeVm(t.procs[q], id) {
        CreatorStaysSettled(c, s, e, p, q, id);
      }
    } else if e.proc.SetProc? && p == e.proc.p {
      if p in s.procs && Targets(s.procs[p], id) {
        assert SettledFor(s, s.procs[p], s.procs[q], id);
      }
    } else {
      assert SettledFor(s, s.procs[p], s.procs[q], id);
      TargetIsPast(c, s, p, id);
    }
  }

  lemma TargetIsPast(c: Config, s: State, p: Pid, id: HostId)
    requires ProcsOk(c, s) && p in s.procs && Targets(s.procs[p], id)
    ensures id in s.past
  {
    ProcOf(c, s, p);
    hide ProcsOk;
  }

  lemma CreatorStaysSettled(c: Config, s: State, e: Effect, p: Pid, q: Pid, id: HostId)
    requires ProcsOk(c, s) && TargetsSettled(s) && TeardownStep(s, e) && EffectSound(c, s, e)
    requires e.proc.SetProc? && q == e.proc.p && p != q && p in s.procs && Targets(s.procs[p], id)
    requires BeforeVm(e.proc.proc, id)
    ensures SettledFor(Commit(s, e), s.procs[p], e.proc.proc, id)
  {
    hide RowOk, Gains;
    TargetIsPast(c, s, p, id);
    ProcOf(c, s, q);
    hide ProcsOk;
    if BeforeVm(s.procs[q], id) {
      assert SettledFor(s, s.procs[p], s.procs[q], id);
      assert Spares(s, e.row, s.procs[p]);
    }
  }

  lemma KeepsNoOrphan(c: Config, s: State, e: Effect)
    requires ProcsOk(c, s) && TeardownOk(s) && PutFits(c, s, e.row) && TeardownStep(s, e)
    ensures NoOrphan(Commit(s, e))
  {
    var t := Commit(s, e);
    hide RowOk;
    if e.proc.SetProc? && e.proc.p in s.procs {
      assert ProcOk(c, s, s.procs[e.proc.p]);
    }
    forall vm | vm in t.vms
      ensures Named(t, vm)
    {
      if vm in s.vms {
        assert Named(s, vm);
        var id :| id in s.rows && s.rows[id].provider == vm.provider && s.rows[id].name == vm.name;
        assert !(e.row.DropRow? && e.row.gone == id);
        assert id in t.rows && t.rows[id].provider == vm.provider && t.rows[id].name == vm.name;
      } else {
        var id := s.procs[e.proc.p].pc.draft.id;
        assert id in t.rows && t.rows[id].provider == vm.provider && t.rows[id].name == vm.name;
      }
    }
  }

  lemma KeepsVmsGone(c: Config, s: State, e: Effect)
    requires ProcsOk(c, s) && NamesUnique(s) && TeardownOk(s) && RowsOk(c, s)
    requires EffectSound(c, s, e) && TeardownStep(s, e)
    ensures forall p :: p in Commit(s, e).procs && DeletesRow(Commit(s, e).procs[p])
                        && Commit(s, e).procs[p].stage.target.id in Commit(s, e).rows ==>
              var target := Commit(s, e).procs[p].stage.target;
              Vm(target.provider, target.name) !in Commit(s, e).vms
  {
    var t := Commit(s, e);
    hide NoOrphan, Gains, SparesOthers, RowOk;
    forall p | p in t.procs && DeletesRow(t.procs[p]) && t.procs[p].stage.target.id in t.rows
      ensures var target := t.procs[p].stage.target; Vm(target.provider, target.name) !in t.vms
    {
      if p in s.procs && t.procs[p] == s.procs[p] {
        var target := t.procs[p].stage.target;
        assert ProcOk(c, s, s.procs[p]);
        assert target.id in s.rows;
        assert Vm(target.provider, target.name) !in s.vms;
        if e.vm.AddVm? {
          var proc := s.procs[e.proc.p];
          assert ProcOk(c, s, proc);
          assert Targets(s.procs[p], target.id);
          assert SettledFor(s, s.procs[p], proc, target.id);
        }
      }
    }
  }

  lemma TeardownKept(c: Config, s: State, a: Action)
    requires Safe(c, s) && TeardownOk(s) && Enabled(c, s, a) && ReapsAbandoned(s, a)
    ensures TeardownOk(Next(c, s, a))
  {
    var e := Transition(c, s, a).value;
    TransitionSound(c, s, a);
    TransitionTeardown(c, s, a);
    TransitionTakesSettled(c, s, a);
    TransitionDevices(c, s, a);
    hide Transition, DeviceStep, DevicesOk, TeardownStep, TakesSettledRow, RowsOk, ProcsOk, LocksExclusive, DraftsDistinct, NamesUnique,
         KeysOk, Commit, NoOrphan, SparesOthers, Gains, ProcOk;
    KeepsRowsOfCreators(c, s, e);
    KeepsTargetsSettled(c, s, e);
    KeepsDevices(s, e);
    KeepsNoOrphan(c, s, e);
    KeepsVmsGone(c, s, e);
  }

  /** No orphan VM: in every state of every run, whatever steps fail and whichever processes stop, each VM at a provider
      is named by a row, when the janitor takes no row for which a create_vm call is under way. */
  lemma {:induction false} NoVmIsOrphaned(c: Config, states: seq<State>, actions: seq<Action>, i: nat)
    requires IsRun(c, states, actions) && Safe(c, states[0]) && TeardownOk(states[0]) && i < |states|
    requires forall k :: 0 <= k < |actions| ==> ReapsAbandoned(states[k], actions[k])
    ensures TeardownOk(states[i])
    ensures forall vm :: vm in states[i].vms ==>
              exists id :: id in states[i].rows
                           && states[i].rows[id].provider == vm.provider && states[i].rows[id].name == vm.name
  {
    if i == 0 {
    } else {
      NoVmIsOrphaned(c, states, actions, i - 1);
      RunSafe(c, states, actions, i - 1);
      hide Safe, TeardownOk, Transition, Commit;
      TeardownKept(c, states[i - 1], actions[i - 1]);
    }
    OrphansAreNamed(states[i]);
  }

  lemma OrphansAreNamed(s: State)
    requires TeardownOk(s)
    ensures forall vm :: vm in s.vms ==>
              exists id :: id in s.rows && s.rows[id].provider == vm.provider && s.rows[id].name == vm.name
  {
    forall vm | vm in s.vms
      ensures exists id :: id in s.rows && s.rows[id].provider == vm.provider && s.rows[id].name == vm.name
    {
      assert Named(s, vm);
    }
  }

  // ---- Guards ----

  /** From the lock on, a delete without a device to release either holds its row or is done. */
  predicate HoldsOrDone(proc: Proc, id: HostId, mode: Mode) {
    && proc.Deleter?
    && (proc.stage.Done?
        || ((proc.stage.DeleteVm? || proc.stage.DeleteRow?) && proc.stage.locked
            && proc.stage.target.id == id && proc.stage.target.mode == mode))
  }

  lemma LockHolds(c: Config, s: State, a: Action, p: Pid, id: HostId, mode: Mode)
    requires p in s.procs && Enabled(c, s, a)
    requires (s.procs[p] == Deleter(LockHost(id, mode)) && a.Go? && a.p == p
              && (id in s.rows ==> !s.rows[id].hasDevice || !c.tailscale))
             || (HoldsOrDone(s.procs[p], id, mode) && a != Halt(p))
    ensures p in Next(c, s, a).procs && HoldsOrDone(Next(c, s, a).procs[p], id, mode)
  {
    if a.Go? {
      match s.procs[a.p]
      case Creator(req, pc) => AdvanceMoves(c, s, a.p, req, pc, a.choice);
      case Deleter(stage) =>
    }
    hide Advance, LeaseEnd, IsPlan, Live;
  }

  lemma {:induction false} LockHoldsOn(c: Config, states: seq<State>, actions: seq<Action>,
                                       i: nat, j: nat, p: Pid, id: HostId, mode: Mode)
    requires IsRun(c, states, actions) && i < j < |states|
    requires p in states[i].procs && states[i].procs[p] == Deleter(LockHost(id, mode))
    requires actions[i].Go? && actions[i].p == p
    requires id in states[i].rows ==> !states[i].rows[id].hasDevice || !c.tailscale
    requires forall k :: i <= k < j ==> actions[k] != Halt(p)
    ensures p in states[j].procs && HoldsOrDone(states[j].procs[p], id, mode)
  {
    hide Transition, Commit, HoldsOrDone;
    if i + 1 == j {
    } else {
      LockHoldsOn(c, states, actions, i, j - 1, p, id, mode);
    }
    assert Enabled(c, states[j - 1], actions[j - 1]) && states[j] == Next(c, states[j - 1], actions[j - 1]);
    LockHolds(c, states[j - 1], actions[j - 1], p, id, mode);
  }

  /** Delete guards hold when the row goes: over all interleavings with claims and renewals, a shed that locked a row
      without a device removes it unclaimed, and a reap removes it only after its lease has ended. */
  lemma GuardedDelete(c: Config, states: seq<State>, actions: seq<Action>,
                      i: nat, j: nat, p: Pid, id: HostId, mode: Mode)
    requires IsRun(c, states, actions) && Safe(c, states[0]) && i < j < |actions|
    requires p in states[i].procs && states[i].procs[p] == Deleter(LockHost(id, mode))
    requires actions[i].Go? && actions[i].p == p
    requires id in states[i].rows ==> !states[i].rows[id].hasDevice || !c.tailscale
    requires forall k :: i <= k < j ==> actions[k] != Halt(p)
    requires actions[j].Go? && actions[j].p == p && DeletesRow(states[j].procs[p])
    ensures id in states[j].rows && id !in states[j + 1].rows
    ensures mode == Shed ==> states[j].rows[id].claimedAt.None?
    ensures mode == Reap ==> states[j].rows[id].expiresAt.Some? && states[j].rows[id].expiresAt.value <= states[j].now
  {
    hide Advance, TakeHost, DropDevice, DropVmOf;
    LockHoldsOn(c, states, actions, i, j, p, id, mode);
    RunSafe(c, states, actions, j);
    assert ProcOk(c, states[j], states[j].procs[p]);
    assert Enabled(c, states[j], actions[j]) && states[j + 1] == Next(c, states[j], actions[j]);
    hide IsRun, Safe;
  }

  /** From the lock on, a delete that has a device to release is about to give up its row, has given it up, or is done. */
  predicate UnlocksOrDone(proc: Proc, id: HostId) {
    && proc.Deleter?
    && (proc.stage.Done? || (proc.stage.ReleaseDevice? && proc.stage.target.id == id)
        || ((proc.stage.DeleteVm? || proc.stage.DeleteRow?) && !proc.stage.locked && proc.stage.target.id == id))
  }

  lemma LockEnds(c: Config, s: State, a: Action, p: Pid, id: HostId, mode: Mode)
    requires p in s.procs && Enabled(c, s, a)
    requires (s.procs[p] == Deleter(LockHost(id, mode)) && a.Go? && a.p == p
              && id in s.rows && s.rows[id].hasDevice && c.tailscale
              && (mode == Reap || s.rows[id].status in VM_BACKED_STATUSES || s.rows[id].status in DELETE_BLOCKED_STATUSES))
             || (UnlocksOrDone(s.procs[p], id) && a != Halt(p))
    ensures p in Next(c, s, a).procs && UnlocksOrDone(Next(c, s, a).procs[p], id)
  {
    hide Advance, LeaseEnd, IsPlan, Live;
    if a.Go? {
      match s.procs[a.p]
      case Creator(req, pc) => AdvanceMoves(c, s, a.p, req, pc, a.choice);
      case Deleter(stage) =>
    }
  }

  lemma {:induction false} LockEndsOn(c: Config, states: seq<State>, actions: seq<Action>,
                                      i: nat, j: nat, p: Pid, id: HostId, mode: Mode)
    requires IsRun(c, states, actions) && i < j < |states|
    requires p in states[i].procs && states[i].procs[p] == Deleter(LockHost(id, mode))
    requires actions[i].Go? && actions[i].p == p
    requires id in states[i].rows && states[i].rows[id].hasDevice && c.tailscale
    requires forall k :: i <= k < j ==> actions[k] != Halt(p)
    ensures p in states[j].procs && UnlocksOrDone(states[j].procs[p], id)
  {
    hide Transition, Commit, UnlocksOrDone;
    StatusesSplit(states[i].rows[id].status);
    if i + 1 == j {
    } else {
      LockEndsOn(c, states, actions, i, j - 1, p, id, mode);
    }
    assert Enabled(c, states[j - 1], actions[j - 1]) && states[j] == Next(c, states[j - 1], actions[j - 1]);
    LockEnds(c, states[j - 1], actions[j - 1], p, id, mode);
  }

  /** The condition of GuardedDelete is exact: a delete that comes to its row still has the lock, if and only if the
      row had no device to release when it was locked. */
  lemma LockLastsExactlyWithoutDevice(c: Config, states: seq<State>, actions: seq<Action>,
                                      i: nat, j: nat, p: Pid, id: HostId, mode: Mode)
    requires IsRun(c, states, actions) && i < j < |states|
    requires p in states[i].procs && states[i].procs[p] == Deleter(LockHost(id, mode)) && id in states[i].rows
    requires actions[i].Go? && actions[i].p == p
    requires forall k :: i <= k < j ==> actions[k] != Halt(p)
    requires p in states[j].procs && DeletesRow(states[j].procs[p])
    ensures RowLock(states[j].procs[p]) == Some(id) <==> !(states[i].rows[id].hasDevice && c.tailscale)
  {
    hide Transition, Commit, IsRun;
    if states[i].rows[id].hasDevice && c.tailscale {
      LockEndsOn(c, states, actions, i, j, p, id, mode);
    } else {
      LockHoldsOn(c, states, actions, i, j, p, id, mode);
    }
  }
}
