/** Exclusive claims, and what an idempotency key promises. */
module HostClaims {
  import opened Wrappers
  import opened HostModel
  import opened HostProtocol
  import opened HostSafety

  /** The host a caller's request has in hand: created or claimed, and not given back. */
  function Holds(proc: Proc): Option<HostId> {
    if proc.Deleter? || proc.req.tick.Some? then None
    else if HasDraft(proc.pc) then Some(proc.pc.draft.id)
    else if proc.pc.RecordKey? || proc.pc.ReadLoser? || proc.pc.WriteLoser? then Some(proc.pc.own)
    else if proc.pc.Returned? && proc.pc.held then Some(proc.pc.host)
    else None
  }

  /** The record and the holder of a pool member agree with its row. */
  ghost predicate HoldOk(s: State, proc: Proc) {
    var h := Holds(proc);
    && (h.Some? ==>
          && h.value in s.used
          && (!HasDraft(proc.pc) ==> h.value in s.past)
          && (h.value in s.rows && s.rows[h.value].poolMember ==> s.rows[h.value].claimedAt.Some?)
          && (proc.pc.WriteLoser? && h.value in s.rows ==> proc.pc.wasClaimed == s.rows[h.value].poolMember))
  }

  ghost predicate HoldsOk(s: State) {
    forall p :: p in s.procs ==> HoldOk(s, s.procs[p])
  }

  ghost predicate HoldsDistinct(s: State) {
    forall p, q :: p in s.procs && q in s.procs && p != q && Holds(s.procs[p]).Some? ==>
      Holds(s.procs[p]) != Holds(s.procs[q])
  }

  /** A recorded host is claimed if it is a pool member, and whoever holds it has returned it. */
  ghost predicate RecordsOk(s: State) {
    && (forall k :: k in s.keys && s.keys[k].host in s.rows && s.rows[s.keys[k].host].poolMember ==>
          s.rows[s.keys[k].host].claimedAt.Some?)
    && (forall k, p :: k in s.keys && p in s.procs && Holds(s.procs[p]) == Some(s.keys[k].host) ==>
          s.procs[p].pc.Returned?)
  }

  ghost predicate Custody(s: State) {
    HoldsOk(s) && HoldsDistinct(s) && RecordsOk(s)
  }

  /** How one step may change who holds what. */
  ghost predicate CustodyStep(s: State, e: Effect) {
    && (e.row.PutRow? && e.row.id in s.rows ==>
          var was, row := s.rows[e.row.id], e.row.row;
          || (row.claimedAt == was.claimedAt && row.account == was.account)
          || (was.poolMember && was.claimedAt.None? && row.claimedAt.Some?
              && e.proc.SetProc? && Holds(e.proc.proc) == Some(e.row.id))
          || (row.claimedAt.None? && row.account.None? && row.writer == PoolReturn
              && e.proc.SetProc? && e.proc.p in s.procs && Holds(s.procs[e.proc.p]) == Some(e.row.id)
              && s.procs[e.proc.p].pc.WriteLoser? && Holds(e.proc.proc).None?))
    && (e.proc.SetProc? && Holds(e.proc.proc).Some? ==>
          || (e.proc.p in s.procs && Holds(e.proc.proc) == Holds(s.procs[e.proc.p])
              && !s.procs[e.proc.p].pc.Returned?)
          || (Holds(e.proc.proc).value !in s.used && Holds(e.proc.proc).value in e.minted && HasDraft(e.proc.proc.pc))
          || (e.row.PutRow? && Holds(e.proc.proc) == Some(e.row.id) && e.row.id in s.rows
              && s.rows[e.row.id].poolMember && s.rows[e.row.id].claimedAt.None? && e.row.row.claimedAt.Some?))
    && (e.row.PutRow? && e.row.id !in s.rows ==>
          && e.proc.SetProc? && e.proc.p in s.procs
          && DraftOf(s.procs[e.proc.p]).Some? && DraftOf(s.procs[e.proc.p]).value.id == e.row.id
          && e.row.row.poolMember == s.procs[e.proc.p].req.tick.Some?)
    && (e.key.PutKey? ==>
          && e.key.key !in s.keys
          && e.proc.SetProc? && Holds(e.proc.proc) == Some(e.key.record.host) && e.proc.proc.pc.Returned?)
    && (e.proc.SetProc? ==> HoldOk(Commit(s, e), e.proc.proc))
  }

  lemma ClaimCustody(c: Config, s: State, p: Pid, req: Request, pc: Pc)
    requires ProcOk(c, s, Creator(req, pc)) && HoldOk(s, Creator(req, pc)) && RowsOk(c, s)
    requires p in s.procs && s.procs[p] == Creator(req, pc)
    ensures pc.ClaimWarm? ==>
              var e := UpdateWarm(c, s, p, req, pc.id, pc.at, pc.createdAt);
              e.Some? ==> CustodyStep(s, e.value)
    ensures pc.WriteLoser? ==>
              var e := ReleaseLoser(c, s, p, req, pc.own, pc.wasClaimed, pc.now);
              e.Some? ==> CustodyStep(s, e.value)
  {
    hide LeaseEnd;
  }

  lemma CommitCustody(c: Config, s: State, p: Pid, req: Request, pc: Pc, row: Row, next: Pc)
    requires CreatorOk(c, s, req, pc) && HoldOk(s, Creator(req, pc)) && RowsOk(c, s)
    requires p in s.procs && s.procs[p] == Creator(req, pc) && pc.Provision?
    requires pc.draft.id in s.rows ==>
               var was := s.rows[pc.draft.id];
               row.claimedAt == was.claimedAt && row.account == was.account && row.poolMember == was.poolMember
    requires next == Failed || next == Settle(req, pc.draft.id) || (next.Provision? && next.draft == pc.draft)
    requires CreatorCommit(s, p, req, pc.draft.id, row, next).Some?
    ensures CustodyStep(s, CreatorCommit(s, p, req, pc.draft.id, row, next).value)
  {
    hide RowOk, StatusFits, RowFreeFor;
  }

  lemma BuildCustody(c: Config, s: State, p: Pid, req: Request, pc: Pc, choice: Choice)
    requires CreatorOk(c, s, req, pc) && HoldOk(s, Creator(req, pc)) && RowsOk(c, s)
    requires p in s.procs && s.procs[p] == Creator(req, pc) && pc.Provision?
    requires Build(c, s, p, req, pc.draft, pc.phase, choice).Some?
    ensures CustodyStep(s, Build(c, s, p, req, pc.draft, pc.phase, choice).value)
  {
    var d := pc.draft;
    var row := RowOr(s, d.id, NewRow(req, d));
    match pc.phase
    case CommitNetwork =>
      hide CustodyStep, CreatorOk, HoldOk;
      CommitCustody(c, s, p, req, pc, row.(status := CreatingNetwork), Provision(d, CommitVm));
    case CommitVm =>
      if !choice.Fails? && (req.provider in c.tailnet ==> c.tailscale) {
        hide CustodyStep, CreatorOk, HoldOk;
        CommitCustody(c, s, p, req, pc, row.(status := CreatingVm), Provision(d, CallProvider));
      }
    case CallProvider =>
    case CommitBootstrapping =>
      hide CustodyStep, CreatorOk, HoldOk;
      var next := if req.provider in c.tailnet then WaitDevice else CommitActive;
      CommitCustody(c, s, p, req, pc, row.(status := Bootstrapping), Provision(d, next));
    case WaitDevice =>
      if !choice.Fails? {
        hide CustodyStep, CreatorOk, HoldOk;
        CommitCustody(c, s, p, req, pc, row.(hasDevice := true), Provision(d, CommitActive));
      }
    case CommitActive =>
      if !choice.Fails? {
        hide CustodyStep, CreatorOk, HoldOk;
        CommitCustody(c, s, p, req, pc, row.(status := Active), Provision(d, StampLease));
      }
    case MarkFailed(at) =>
      hide CustodyStep, CreatorOk, HoldOk;
      CommitCustody(c, s, p, req, pc, row.(status := Error, expiresAt := Some(at), writer := Failure), Failed);
    case StampLease =>
      if d.id in s.rows && s.rows[d.id].expiresAt == Some(d.initial) {
        hide CustodyStep, CreatorOk, HoldOk, LeaseEnd;
        CommitCustody(c, s, p, req, pc, StampedRow(c, req, row, d, s.now), Settle(req, d.id));
      }
  }

  lemma AskCustody(c: Config, s: State, p: Pid, req: Request, pc: Pc, choice: Choice)
    requires ProcOk(c, s, Creator(req, pc)) && HoldOk(s, Creator(req, pc)) && RowsOk(c, s)
    requires p in s.procs && s.procs[p] == Creator(req, pc)
    requires !pc.ClaimWarm? && !pc.WriteLoser? && !pc.Provision? && !pc.InsertRow? && !pc.RecordKey?
    requires Advance(c, s, p, req, pc, choice).Some?
    ensures CustodyStep(s, Advance(c, s, p, req, pc, choice).value)
  {
    hide LeaseEnd, UpdateWarm, ReleaseLoser, Build, AddHost, AddKey, Live, WithinLifetime, LiveOfProvider, LiveOfAccount,
         AccountFree, ProviderFree;
  }

  lemma InsertCustody(c: Config, s: State, p: Pid, req: Request, pc: Pc)
    requires CreatorOk(c, s, req, pc) && HoldOk(s, Creator(req, pc)) && RowsOk(c, s)
    requires p in s.procs && s.procs[p] == Creator(req, pc)
    ensures pc.InsertRow? ==> var e := AddHost(s, p, req, pc.draft); e.Some? ==> CustodyStep(s, e.value)
    ensures pc.RecordKey? ==> var e := AddKey(c, s, p, req, pc.own); e.Some? ==> CustodyStep(s, e.value)
  {
    hide RowFreeFor;
  }

  lemma RemoveCustody(c: Config, s: State, p: Pid, stage: Stage, choice: Choice)
    requires p in s.procs && s.procs[p] == Deleter(stage)
    requires Remove(c, s, p, stage, choice).Some?
    ensures CustodyStep(s, Remove(c, s, p, stage, choice).value)
  {
  }

  lemma BeginCustody(c: Config, s: State, a: Action)
    requires !a.Go? && Enabled(c, s, a)
    ensures CustodyStep(s, Transition(c, s, a).value)
  {
    hide Advance, Remove, IsPlan, LeaseEnd;
  }

  lemma GoCustody(c: Config, s: State, p: Pid, choice: Choice)
    requires RowsOk(c, s) && ProcsOk(c, s) && HoldsOk(s) && p in s.procs
    ensures match s.procs[p]
            case Creator(req, pc) =>
              var e := Advance(c, s, p, req, pc, choice);
              e.Some? ==> CustodyStep(s, e.value)
            case Deleter(stage) =>
              var e := Remove(c, s, p, stage, choice);
              e.Some? ==> CustodyStep(s, e.value)
  {
    assert ProcOk(c, s, s.procs[p]);
    assert HoldOk(s, s.procs[p]);
    hide CustodyStep, HoldOk, CreatorOk, RowsOk, HoldsOk, ProcsOk, FindKey, FindKeyHost, CollectKey, CheckAccount,
         SelectWarm, UpdateWarm, DraftHost, CheckProvider, AddHost, Build, AddKey, LoadLoser, ReleaseLoser, Remove;
    match s.procs[p]
    case Creator(req, pc) =>
      if pc.ClaimWarm? || pc.WriteLoser? {
        ClaimCustody(c, s, p, req, pc);
      } else if pc.InsertRow? || pc.RecordKey? {
        InsertCustody(c, s, p, req, pc);
      } else if pc.Provision? {
        if Build(c, s, p, req, pc.draft, pc.phase, choice).Some? {
          BuildCustody(c, s, p, req, pc, choice);
        }
      } else if Advance(c, s, p, req, pc, choice).Some? {
        AskCustody(c, s, p, req, pc, choice);
      }
    case Deleter(stage) =>
      if Remove(c, s, p, stage, choice).Some? {
        RemoveCustody(c, s, p, stage, choice);
      }
  }

  lemma TransitionCustody(c: Config, s: State, a: Action)
    requires RowsOk(c, s) && ProcsOk(c, s) && HoldsOk(s) && Enabled(c, s, a)
    ensures CustodyStep(s, Transition(c, s, a).value)
  {
    if a.Go? {
      GoCustody(c, s, a.p, a.choice);
      hide Advance, Remove, CustodyStep;
    } else {
      BeginCustody(c, s, a);
    }
  }

  lemma KeepsHolds(c: Config, s: State, e: Effect)
    requires RowsOk(c, s) && ProcsOk(c, s) && DraftsDistinct(s) && HoldsOk(s) && HoldsDistinct(s)
    requires EffectSound(c, s, e) && CustodyStep(s, e)
    ensures HoldsOk(Commit(s, e))
  {
    var t := Commit(s, e);
    forall q | q in t.procs
      ensures HoldOk(t, t.procs[q])
    {
      if Some(q) != ActorOf(e.proc) {
        assert HoldOk(s, s.procs[q]) && ProcOk(c, s, s.procs[q]);
        hide ProcOk, SparesOthers, Gains, RowOk, HoldsOk, RowsOk;
      }
    }
  }

  lemma KeepsHoldsDistinct(c: Config, s: State, e: Effect)
    requires HoldsOk(s) && HoldsDistinct(s)
    requires CustodyStep(s, e)
    ensures HoldsDistinct(Commit(s, e))
  {
    hide Holds;
  }

  lemma KeepsRecords(c: Config, s: State, e: Effect)
    requires RowsOk(c, s) && KeysOk(s) && Custody(s)
    requires EffectSound(c, s, e) && CustodyStep(s, e)
    ensures RecordsOk(Commit(s, e))
  {
    hide ProcOk, SparesOthers, Gains, RowOk;
  }

  lemma CustodyKept(c: Config, s: State, a: Action)
    requires Safe(c, s) && Custody(s) && Enabled(c, s, a)
    ensures Custody(Next(c, s, a))
  {
    var e := Transition(c, s, a).value;
    TransitionSound(c, s, a);
    TransitionCustody(c, s, a);
    hide Transition, EffectSound, CustodyStep, Commit, RowsOk, ProcsOk, LocksExclusive, DraftsDistinct, NamesUnique,
         KeysOk, HoldsOk, HoldsDistinct, RecordsOk;
    KeepsHolds(c, s, e);
    KeepsHoldsDistinct(c, s, e);
    KeepsRecords(c, s, e);
  }

  // ---- Sheds stay inside the pool ----

  /** The row a deleter wants to shed. */
  function Sheds(proc: Proc): Option<HostId> {
    if proc.Deleter? && proc.stage.LockHost? && proc.stage.mode == Shed then Some(proc.stage.id)
    else if proc.Deleter? && HasTarget(proc.stage) && proc.stage.target.mode == Shed then Some(proc.stage.target.id)
    else None
  }

  predicate IsPoolId(s: State, id: HostId) {
    id in s.past && (id in s.rows ==> s.rows[id].poolMember)
  }

  ghost predicate PoolOnly(s: State) {
    && (forall slot, id :: 0 <= slot < |s.ticks| && s.ticks[slot].Running? && id in s.ticks[slot].excess ==>
          IsPoolId(s, id))
    && (forall p :: p in s.procs && Sheds(s.procs[p]).Some? ==> IsPoolId(s, Sheds(s.procs[p]).value))
  }

  /** A tick lists pool members only, and a shed starts from such a list. */
  ghost predicate ShedStep(s: State, e: Effect) {
    && (e.tick.SetTick? && e.tick.slot < |s.ticks| && e.tick.tick.Running? ==>
          forall id :: id in e.tick.tick.excess ==>
            || (id in s.rows && s.rows[id].poolMember)
            || (s.ticks[e.tick.slot].Running? && id in s.ticks[e.tick.slot].excess))
    && (e.proc.SetProc? && Sheds(e.proc.proc).Some? ==>
          || (e.proc.p in s.procs && Sheds(e.proc.proc) == Sheds(s.procs[e.proc.p]))
          || exists slot :: 0 <= slot < |s.ticks| && s.ticks[slot].Running?
                            && Sheds(e.proc.proc).value in s.ticks[slot].excess)
  }

  lemma AdvanceSheds(c: Config, s: State, p: Pid, req: Request, pc: Pc, choice: Choice)
    requires Advance(c, s, p, req, pc, choice).Some?
    ensures ShedStep(s, Advance(c, s, p, req, pc, choice).value)
  {
    hide LeaseEnd, Live, IsCandidate, LiveOfProvider, LiveOfAccount;
  }

  lemma TransitionSheds(c: Config, s: State, a: Action)
    requires Enabled(c, s, a)
    ensures ShedStep(s, Transition(c, s, a).value)
  {
    if a.Go? && s.procs[a.p].Creator? {
      AdvanceSheds(c, s, a.p, s.procs[a.p].req, s.procs[a.p].pc, a.choice);
      hide Advance, ShedStep, Remove;
    } else {
      hide Advance, LeaseEnd;
    }
  }

  lemma KeepsPoolId(c: Config, s: State, e: Effect, id: HostId)
    requires PutFits(c, s, e.row) && IsPoolId(s, id)
    ensures IsPoolId(Commit(s, e), id)
  {
  }

  lemma KeepsPoolOnly(c: Config, s: State, e: Effect)
    requires RowsOk(c, s) && PoolOnly(s) && PutFits(c, s, e.row) && ShedStep(s, e)
    ensures PoolOnly(Commit(s, e))
  {
    var t := Commit(s, e);
    forall slot, id | 0 <= slot < |t.ticks| && t.ticks[slot].Running? && id in t.ticks[slot].excess
      ensures IsPoolId(t, id)
    {
      KeepsPoolId(c, s, e, id);
    }
    forall p | p in t.procs && Sheds(t.procs[p]).Some?
      ensures IsPoolId(t, Sheds(t.procs[p]).value)
    {
      KeepsPoolId(c, s, e, Sheds(t.procs[p]).value);
    }
  }

  lemma PoolOnlyKept(c: Config, s: State, a: Action)
    requires Safe(c, s) && PoolOnly(s) && Enabled(c, s, a)
    ensures PoolOnly(Next(c, s, a))
  {
    TransitionSound(c, s, a);
    TransitionSheds(c, s, a);
    KeepsPoolOnly(c, s, Transition(c, s, a).value);
    hide Transition, ProcsOk, LocksExclusive, DraftsDistinct, NamesUnique, PoolOnly;
  }

  // ---- Theorems over whole runs ----

  ghost predicate Claims(c: Config, s: State) {
    Safe(c, s) && Custody(s) && PoolOnly(s)
  }

  lemma StartClaims(c: Config, s: State)
    requires Start(s)
    ensures Claims(c, s)
  {
  }

  lemma ClaimsKept(c: Config, s: State, a: Action)
    requires Claims(c, s) && Enabled(c, s, a)
    ensures Claims(c, Next(c, s, a))
  {
    hide Safe, Custody, PoolOnly, Transition, Commit;
    SafeKept(c, s, a);
    CustodyKept(c, s, a);
    PoolOnlyKept(c, s, a);
  }

  lemma {:induction false} RunClaims(c: Config, states: seq<State>, actions: seq<Action>, i: nat)
    requires IsRun(c, states, actions) && Claims(c, states[0]) && i < |states|
    ensures Claims(c, states[i])
  {
    hide Claims, Transition, Commit;
    if i == 0 {
    } else {
      RunClaims(c, states, actions, i - 1);
      ClaimsKept(c, states[i - 1], actions[i - 1]);
    }
  }

  /** Exclusive claims: in every state of every run a host is in the hands of at most one request, a pool member in
      the hands of a request is claimed, and only pool members are claimed or picked for shedding. */
  lemma ExclusiveClaims(c: Config, states: seq<State>, actions: seq<Action>, i: nat)
    requires IsRun(c, states, actions) && Claims(c, states[0]) && i < |states|
    ensures var s := states[i];
            && (forall p, q :: p in s.procs && q in s.procs && p != q && Holds(s.procs[p]).Some? ==>
                  Holds(s.procs[p]) != Holds(s.procs[q]))
            && (forall p :: p in s.procs && Holds(s.procs[p]).Some? && Holds(s.procs[p]).value in s.rows
                            && s.rows[Holds(s.procs[p]).value].poolMember ==>
                  s.rows[Holds(s.procs[p]).value].claimedAt.Some?)
            && (forall id :: id in s.rows && s.rows[id].claimedAt.Some? ==> s.rows[id].poolMember)
            && (forall p :: p in s.procs && Sheds(s.procs[p]).Some? && Sheds(s.procs[p]).value in s.rows ==>
                  s.rows[Sheds(s.procs[p]).value].poolMember)
  {
    RunClaims(c, states, actions, i);
    hide IsRun, ProcsOk, Holds, Sheds;
    var s := states[i];
    forall p | p in s.procs && Holds(s.procs[p]).Some?
      ensures HoldOk(s, s.procs[p])
    {
    }
  }

  /** A claim lasts until its holder gives the host back: no other step, of any process, clears or moves it. */
  lemma ClaimLasts(c: Config, s: State, a: Action, p: Pid, h: HostId)
    requires Claims(c, s) && Enabled(c, s, a)
    requires p in s.procs && Holds(s.procs[p]) == Some(h) && h in s.rows && s.rows[h].poolMember
    requires h in Next(c, s, a).rows
    requires !(a.Go? && a.p == p && s.procs[p].pc.WriteLoser?)
    ensures Next(c, s, a).rows[h].claimedAt == s.rows[h].claimedAt
    ensures Next(c, s, a).rows[h].account == s.rows[h].account
  {
    TransitionCustody(c, s, a);
    ActorIsProcess(c, s, a);
    assert HoldOk(s, s.procs[p]);
    hide Transition, Safe, Holds, HoldOk, PoolOnly, RecordsOk;
  }
}
