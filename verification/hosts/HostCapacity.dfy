/** Counts: the host limits, and the bound on the warm pool under overlapping ticks. */
module HostCapacity {
  import opened Wrappers
  import opened HostModel
  import opened HostProtocol
  import opened HostSafety
  import opened HostIdempotency
  import opened HostLeases

  /** No row that had lapsed is live again after the step. */
  ghost predicate NothingRevives(s: State, t: State) {
    forall id :: id in s.rows && id in t.rows && Unexpired(t.rows[id], t.now) ==> Unexpired(s.rows[id], s.now)
  }

  lemma OneMore<T>(xs: set<T>, ys: set<T>, y: T)
    requires xs <= ys + {y}
    ensures |xs| <= |ys| + 1
  {
    Subset(xs, ys + {y});
  }

  lemma {:induction false} Subset<T>(xs: set<T>, ys: set<T>)
    requires xs <= ys
    ensures |xs| <= |ys|
  {
    if xs == {} {
    } else {
      var x :| x in xs;
      Subset(xs - {x}, ys - {x});
    }
  }

  // ---- What a step does to the counts ----

  /** Who inserts, and what its next step holds. */
  ghost predicate InsertStep(s: State, e: Effect) {
    e.row.PutRow? && e.row.id !in s.rows ==>
      && e.proc.SetProc? && e.proc.p in s.procs
      && s.procs[e.proc.p].Creator? && s.procs[e.proc.p].pc.InsertRow?
      && e.row.id == s.procs[e.proc.p].pc.draft.id
      && e.row.row == NewRow(s.procs[e.proc.p].req, s.procs[e.proc.p].pc.draft)
      && AccountLock(e.proc.proc).None? && ProviderLock(e.proc.proc).None?
  }

  /** A provider lock is taken below the limit, and an insert for a limited provider holds it. */
  ghost predicate ProviderStep(c: Config, s: State, e: Effect) {
    e.proc.SetProc? && e.proc.proc.Creator? && e.proc.proc.pc.InsertRow? ==>
      var provider := e.proc.proc.req.provider;
      && e.row.KeepRows?
      && e.proc.proc.pc.limited == (provider in c.hostLimits)
      && (provider in c.hostLimits ==> |LiveOfProvider(s, provider)| < c.hostLimits[provider])
  }

  ghost predicate LimitsMarked(c: Config, s: State) {
    forall p :: p in s.procs && s.procs[p].Creator? && s.procs[p].pc.InsertRow? ==>
      s.procs[p].pc.limited == (s.procs[p].req.provider in c.hostLimits)
  }

  ghost predicate WithinProvider(c: Config, s: State, provider: Provider)
    requires provider in c.hostLimits
  {
    && LimitsMarked(c, s)
    && |LiveOfProvider(s, provider)| <= c.hostLimits[provider]
    && (forall p :: p in s.procs && ProviderLock(s.procs[p]) == Some(provider) ==>
          |LiveOfProvider(s, provider)| < c.hostLimits[provider])
  }

  lemma AdvanceInserts(c: Config, s: State, p: Pid, req: Request, pc: Pc, choice: Choice)
    requires RowsOk(c, s) && CreatorOk(c, s, req, pc)
    requires p in s.procs && s.procs[p] == Creator(req, pc)
    requires Advance(c, s, p, req, pc, choice).Some?
    ensures InsertStep(s, Advance(c, s, p, req, pc, choice).value)
  {
    hide LeaseEnd, Live, IsCandidate, LiveOfProvider, LiveOfAccount, RowFreeFor, RowOk, StatusFits, DraftFits;
  }

  lemma AdvanceCounts(c: Config, s: State, p: Pid, req: Request, pc: Pc, choice: Choice)
    requires Advance(c, s, p, req, pc, choice).Some?
    ensures ProviderStep(c, s, Advance(c, s, p, req, pc, choice).value)
  {
    hide LeaseEnd, Live, IsCandidate, LiveOfProvider, LiveOfAccount, RowFreeFor;
  }

  lemma TransitionInserts(c: Config, s: State, a: Action)
    requires RowsOk(c, s) && ProcsOk(c, s) && Enabled(c, s, a)
    ensures InsertStep(s, Transition(c, s, a).value)
  {
    if a.Go? && s.procs[a.p].Creator? {
      assert ProcOk(c, s, s.procs[a.p]);
      AdvanceInserts(c, s, a.p, s.procs[a.p].req, s.procs[a.p].pc, a.choice);
      hide Advance, InsertStep, RowsOk, ProcsOk;
    } else {
      hide Advance, LeaseEnd, IsPlan;
    }
  }

  lemma TransitionCounts(c: Config, s: State, a: Action)
    requires Enabled(c, s, a)
    ensures ProviderStep(c, s, Transition(c, s, a).value)
  {
    if a.Go? && s.procs[a.p].Creator? {
      AdvanceCounts(c, s, a.p, s.procs[a.p].req, s.procs[a.p].pc, a.choice);
      hide Advance, ProviderStep;
    } else {
      hide Advance, LeaseEnd, IsPlan;
    }
  }

  // ---- The limit of a provider ----

  lemma LiveGrowsByInsert(c: Config, s: State, e: Effect, provider: Provider)
    requires EffectSound(c, s, e) && InsertStep(s, e) && !Revives(s, Commit(s, e), provider)
    ensures e.row.PutRow? && e.row.id !in s.rows && e.row.row.provider == provider ==>
              LiveOfProvider(Commit(s, e), provider) <= LiveOfProvider(s, provider) + {e.row.id}
    ensures !(e.row.PutRow? && e.row.id !in s.rows && e.row.row.provider == provider) ==>
              LiveOfProvider(Commit(s, e), provider) <= LiveOfProvider(s, provider)
  {
    hide Gains, SparesOthers, ProcOk, RowOk;
  }

  lemma KeepsProviderLimit(c: Config, s: State, e: Effect, provider: Provider)
    requires LocksExclusive(s) && EffectSound(c, s, e)
    requires InsertStep(s, e) && ProviderStep(c, s, e) && !Revives(s, Commit(s, e), provider)
    requires provider in c.hostLimits && WithinProvider(c, s, provider)
    ensures WithinProvider(c, Commit(s, e), provider)
  {
    hide EffectSound, Revives, LiveOfProvider, RowFree, PutRows, PutKeys;
    var t := Commit(s, e);
    LiveGrowsByInsert(c, s, e, provider);
    if e.row.PutRow? && e.row.id !in s.rows && e.row.row.provider == provider {
      OneMore(LiveOfProvider(t, provider), LiveOfProvider(s, provider), e.row.id);
      assert ProviderLock(s.procs[e.proc.p]) == Some(provider);
    } else {
      Subset(LiveOfProvider(t, provider), LiveOfProvider(s, provider));
    }
  }

  /** Capacity: the live hosts of a limited provider number at most its limit in every state of every run in which no
      step is about to extend a lapsed row of it, because the lock, the count and the insert share one transaction. */
  lemma {:induction false} ProviderCapacity(c: Config, states: seq<State>, actions: seq<Action>, provider: Provider,
                                            i: nat)
    requires IsRun(c, states, actions) && Safe(c, states[0]) && i < |states|
    requires provider in c.hostLimits && WithinProvider(c, states[0], provider)
    requires forall k :: 0 <= k < |actions| ==> !MayRevive(c, states[k], actions[k], provider)
    ensures WithinProvider(c, states[i], provider)
    ensures |LiveOfProvider(states[i], provider)| <= c.hostLimits[provider]
  {
    hide Safe, Transition, Commit, MayRevive, LimitsMarked;
    if i == 0 {
    } else {
      ProviderCapacity(c, states, actions, provider, i - 1);
      RunSafe(c, states, actions, i - 1);
      assert Enabled(c, states[i - 1], actions[i - 1]) && states[i] == Next(c, states[i - 1], actions[i - 1]);
      ProviderLimitKept(c, states[i - 1], actions[i - 1], provider);
    }
  }

  lemma ProviderLimitKept(c: Config, s: State, a: Action, provider: Provider)
    requires Safe(c, s) && Enabled(c, s, a) && !MayRevive(c, s, a, provider)
    requires provider in c.hostLimits && WithinProvider(c, s, provider)
    ensures WithinProvider(c, Next(c, s, a), provider)
  {
    hide WithinProvider, RowsOk, ProcsOk, LocksExclusive, DraftsDistinct, NamesUnique, KeysOk, Transition, Commit,
         MayRevive, Revives, EffectSound, InsertStep, ProviderStep;
    RevivesExactly(c, s, a, provider);
    TransitionSound(c, s, a);
    TransitionInserts(c, s, a);
    TransitionCounts(c, s, a);
    KeepsProviderLimit(c, s, Transition(c, s, a).value, provider);
  }

  // ---- The limit of a service account ----

  predicate Counts(c: Config, req: Request, a: Account) {
    AccountLimited(c, req) && req.account == Some(a)
  }

  /** No request of the account loses the race for a warm host it picked. */
  ghost predicate ClaimsWin(s: State, act: Action, a: Account) {
    act.Go? && act.p in s.procs && s.procs[act.p].Creator? && s.procs[act.p].req.account == Some(a)
    && s.procs[act.p].pc.ClaimWarm? ==>
      s.procs[act.p].pc.id in s.rows && s.rows[s.procs[act.p].pc.id].claimedAt.None?
  }

  /** The account lock is taken below the limit and kept until the insert or the claim commits. */
  ghost predicate AccountStep(c: Config, s: State, e: Effect, a: Account) {
    && (e.proc.SetProc? && e.proc.proc.Creator? && HasLocked(e.proc.proc.pc) && Counts(c, e.proc.proc.req, a) ==>
          && e.proc.proc.pc.locked
          && e.row.KeepRows?
          && ((e.proc.p in s.procs && AccountLock(s.procs[e.proc.p]) == Some(a))
              || |LiveOfAccount(s, a)| < c.accountLimit.value))
    && (e.proc.SetProc? && e.proc.proc.Creator? && !Counts(c, e.proc.proc.req, a) ==>
          AccountLock(e.proc.proc) != Some(a)
          || (e.proc.p in s.procs && AccountLock(s.procs[e.proc.p]) == Some(a) && e.row.KeepRows?))
    && (e.row.PutRow? && e.row.row.account == Some(a) && (e.row.id in s.rows ==> s.rows[e.row.id].account != Some(a)) ==>
          && e.proc.SetProc? && e.proc.p in s.procs
          && s.procs[e.proc.p].Creator? && s.procs[e.proc.p].req.account == Some(a)
          && s.procs[e.proc.p].req.tick.None?
          && HasLocked(s.procs[e.proc.p].pc)
          && AccountLock(e.proc.proc).None?)
  }

  ghost predicate AccountMarked(c: Config, s: State, a: Account) {
    forall p :: p in s.procs && s.procs[p].Creator? && HasLocked(s.procs[p].pc) && Counts(c, s.procs[p].req, a) ==>
      s.procs[p].pc.locked
  }

  ghost predicate WithinAccount(c: Config, s: State, a: Account)
    requires c.accountLimit.Some?
  {
    && AccountMarked(c, s, a)
    && |LiveOfAccount(s, a)| <= c.accountLimit.value
    && (forall p :: p in s.procs && AccountLock(s.procs[p]) == Some(a) ==>
          |LiveOfAccount(s, a)| < c.accountLimit.value)
  }

  lemma BuildAccounts(c: Config, s: State, p: Pid, req: Request, pc: Pc, choice: Choice, a: Account)
    requires c.accountLimit.Some? && a != ADMIN && CreatorOk(c, s, req, pc)
    requires p in s.procs && s.procs[p] == Creator(req, pc) && pc.Provision?
    requires Build(c, s, p, req, pc.draft, pc.phase, choice).Some?
    ensures AccountStep(c, s, Build(c, s, p, req, pc.draft, pc.phase, choice).value, a)
  {
    hide LeaseEnd, LiveOfAccount, RowFreeFor, StatusFits, AccountFree, StampedRow;
    BuildMovesOn(c, s, p, req, pc.draft, pc.phase, choice);
    hide Build;
  }

  /** A provisioning step leaves the account of its row, and holds no lock afterwards. */
  lemma BuildMovesOn(c: Config, s: State, p: Pid, req: Request, d: Draft, phase: Phase, choice: Choice)
    ensures var effect := Build(c, s, p, req, d, phase, choice);
            effect.Some? ==>
              var e := effect.value;
              && e.proc.SetProc? && e.proc.p == p && e.proc.proc.Creator? && e.proc.proc.req == req
              && !HasLocked(e.proc.proc.pc)
              && (e.row.PutRow? ==> e.row.id == d.id && d.id in s.rows && e.row.row.account == s.rows[d.id].account)
  {
    hide LeaseEnd, RowFreeFor;
  }

  lemma AdvanceAccounts(c: Config, s: State, p: Pid, req: Request, pc: Pc, choice: Choice, a: Account)
    requires c.accountLimit.Some? && a != ADMIN && CreatorOk(c, s, req, pc)
    requires p in s.procs && s.procs[p] == Creator(req, pc)
    requires HasLocked(pc) && Counts(c, req, a) ==> pc.locked
    requires ClaimsWin(s, Go(p, choice), a)
    requires Advance(c, s, p, req, pc, choice).Some?
    ensures AccountStep(c, s, Advance(c, s, p, req, pc, choice).value, a)
  {
    if pc.Provision? {
      BuildAccounts(c, s, p, req, pc, choice, a);
      hide Build, AccountStep;
    } else {
      hide LeaseEnd, Live, IsCandidate, LiveOfProvider, LiveOfAccount, RowFreeFor, Build, StatusFits, DraftFits;
    }
  }

  lemma TransitionAccounts(c: Config, s: State, act: Action, a: Account)
    requires c.accountLimit.Some? && a != ADMIN && ProcsOk(c, s) && AccountMarked(c, s, a)
    requires ClaimsWin(s, act, a) && Enabled(c, s, act)
    ensures AccountStep(c, s, Transition(c, s, act).value, a)
  {
    if act.Go? && s.procs[act.p].Creator? {
      assert ProcOk(c, s, s.procs[act.p]);
      AdvanceAccounts(c, s, act.p, s.procs[act.p].req, s.procs[act.p].pc, act.choice, a);
      hide Advance, AccountStep, ProcsOk;
    } else {
      hide Advance, LeaseEnd, IsPlan, ProcsOk;
    }
  }

  lemma AccountGrows(c: Config, s: State, e: Effect, a: Account)
    requires EffectSound(c, s, e) && NothingRevives(s, Commit(s, e))
    ensures var joins := e.row.PutRow? && e.row.row.account == Some(a)
                         && (e.row.id in s.rows ==> s.rows[e.row.id].account != Some(a));
            && (joins ==> LiveOfAccount(Commit(s, e), a) <= LiveOfAccount(s, a) + {e.row.id})
            && (!joins ==> LiveOfAccount(Commit(s, e), a) <= LiveOfAccount(s, a))
  {
    hide Gains, SparesOthers, ProcOk, RowOk;
  }

  lemma KeepsAccountLimit(c: Config, s: State, e: Effect, a: Account)
    requires LocksExclusive(s) && EffectSound(c, s, e)
    requires c.accountLimit.Some? && a != ADMIN
    requires AccountStep(c, s, e, a) && NothingRevives(s, Commit(s, e))
    requires WithinAccount(c, s, a)
    ensures WithinAccount(c, Commit(s, e), a)
  {
    var t := Commit(s, e);
    AccountGrows(c, s, e, a);
    hide EffectSound, NothingRevives, LiveOfAccount;
    if e.row.PutRow? && e.row.row.account == Some(a) && (e.row.id in s.rows ==> s.rows[e.row.id].account != Some(a)) {
      OneMore(LiveOfAccount(t, a), LiveOfAccount(s, a), e.row.id);
      assert AccountLock(s.procs[e.proc.p]) == Some(a);
    } else {
      Subset(LiveOfAccount(t, a), LiveOfAccount(s, a));
    }
  }

  /** The same for the limit of a service account, when none of its claims loses its race. */
  lemma {:induction false} AccountCapacity(c: Config, states: seq<State>, actions: seq<Action>, a: Account, i: nat)
    requires IsRun(c, states, actions) && Safe(c, states[0]) && i < |states|
    requires c.accountLimit.Some? && a != ADMIN && WithinAccount(c, states[0], a)
    requires forall k :: 0 <= k < |actions| ==>
               NothingRevives(states[k], states[k + 1]) && ClaimsWin(states[k], actions[k], a)
    ensures WithinAccount(c, states[i], a)
    ensures |LiveOfAccount(states[i], a)| <= c.accountLimit.value
  {
    hide Safe, Transition, Commit, NothingRevives, ClaimsWin, AccountMarked;
    if i == 0 {
    } else {
      AccountCapacity(c, states, actions, a, i - 1);
      RunSafe(c, states, actions, i - 1);
      assert Enabled(c, states[i - 1], actions[i - 1]) && states[i] == Next(c, states[i - 1], actions[i - 1]);
      assert ClaimsWin(states[i - 1], actions[i - 1], a);
      AccountLimitKept(c, states[i - 1], actions[i - 1], a);
    }
  }

  lemma AccountLimitKept(c: Config, s: State, act: Action, a: Account)
    requires Safe(c, s) && Enabled(c, s, act) && NothingRevives(s, Next(c, s, act)) && ClaimsWin(s, act, a)
    requires c.accountLimit.Some? && a != ADMIN && WithinAccount(c, s, a)
    ensures WithinAccount(c, Next(c, s, act), a)
  {
    assert AccountMarked(c, s, a);
    hide WithinAccount, RowsOk, ProcsOk, LocksExclusive, DraftsDistinct, NamesUnique, KeysOk, Transition, Commit,
         NothingRevives, EffectSound, AccountStep, ClaimsWin, AccountMarked;
    TransitionSound(c, s, act);
    TransitionAccounts(c, s, act, a);
    KeepsAccountLimit(c, s, Transition(c, s, act).value, a);
  }

  // ---- Where the condition is exact ----

  /** Some lapsed row of the provider is live again after the step. */
  ghost predicate Revives(s: State, t: State, provider: Provider) {
    exists id :: id in s.rows && id in LiveOfProvider(t, provider) && id !in LiveOfProvider(s, provider)
  }

  /** The row that a step is about to write with another lease: a renewal, a claim of an unclaimed row, the stamp of a row
      that still carries its safety term, or the release of a loser. */
  function NewLease(c: Config, s: State, a: Action): (written: Option<(HostId, Row)>)
    ensures written.Some? ==> written.value.0 in s.rows
  {
    if a.Renew? && a.id in s.rows then Some((a.id, RenewedRow(c, s.rows[a.id], a.end, s.now)))
    else if a.Go? && a.p in s.procs && s.procs[a.p].Creator? then CreatorLease(c, s, s.procs[a.p].req, s.procs[a.p].pc)
    else None
  }

  function CreatorLease(c: Config, s: State, req: Request, pc: Pc): (written: Option<(HostId, Row)>)
    ensures written.Some? ==> written.value.0 in s.rows
  {
    if pc.ClaimWarm? && pc.id in s.rows && s.rows[pc.id].claimedAt.None? then
      Some((pc.id, ClaimedRow(c, req, s.rows[pc.id], pc.at, pc.createdAt, s.now)))
    else if pc.Provision? && pc.phase.StampLease? && pc.draft.id in s.rows
            && s.rows[pc.draft.id].expiresAt == Some(pc.draft.initial) then
      Some((pc.draft.id, StampedRow(c, req, s.rows[pc.draft.id], pc.draft, s.now)))
    else if pc.WriteLoser? && pc.own in s.rows then
      Some((pc.own, ReleasedRow(c, s.rows[pc.own], pc.wasClaimed, pc.now)))
    else None
  }

  /** Before the step: the row is of the provider, it is not live, and it would be with its new lease. */
  predicate MayRevive(c: Config, s: State, a: Action, provider: Provider) {
    var written := NewLease(c, s, a);
    && written.Some?
    && s.rows[written.value.0].provider == provider
    && !Live(s.rows[written.value.0], s.now) && Live(written.value.1, s.now)
  }

  /** Any step, of any process, keeps the limit of a provider if and only if it is not about to extend a lapsed row of the
      provider past the clock, or there is room for one more. */
  lemma StepKeepsLimitExactly(c: Config, s: State, a: Action, provider: Provider)
    requires Safe(c, s) && Enabled(c, s, a) && provider in c.hostLimits && WithinProvider(c, s, provider)
    ensures |LiveOfProvider(Next(c, s, a), provider)| <= c.hostLimits[provider] <==>
            !MayRevive(c, s, a, provider) || |LiveOfProvider(s, provider)| < c.hostLimits[provider]
  {
    hide Safe, Transition, Commit, WithinProvider, EffectSound, InsertStep, MayRevive, Revives, LiveOfProvider;
    TransitionSound(c, s, a);
    TransitionInsertsSafely(c, s, a);
    WritesInNoTime(c, s, a);
    LimitByEffect(c, s, Transition(c, s, a).value, provider);
    RevivesExactly(c, s, a, provider);
  }

  /** A lapsed row is live again after a step if and only if the step was about to extend it. */
  lemma RevivesExactly(c: Config, s: State, a: Action, provider: Provider)
    requires Safe(c, s) && Enabled(c, s, a)
    ensures Revives(s, Next(c, s, a), provider) <==> MayRevive(c, s, a, provider)
  {
    hide Safe, Transition, Commit, NewLease;
    var t := Next(c, s, a);
    if MayRevive(c, s, a, provider) {
      LeaseIsWritten(c, s, a);
      assert NewLease(c, s, a).value.0 in LiveOfProvider(t, provider);
    }
    if Revives(s, t, provider) {
      var id :| id in s.rows && id in LiveOfProvider(t, provider) && id !in LiveOfProvider(s, provider);
      RevivedWasLapsed(c, s, a, id, provider);
      OwnerWrites(c, s, a, id);
      LeaseIsWritten(c, s, a);
    }
  }

  /** What a step is about to write is what it writes, and nothing else. */
  lemma LeaseIsWritten(c: Config, s: State, a: Action)
    requires Safe(c, s) && Enabled(c, s, a) && NewLease(c, s, a).Some?
    ensures var (id, row) := NewLease(c, s, a).value;
            && Next(c, s, a).rows == s.rows[id := row] && Next(c, s, a).now == s.now
            && row.provider == s.rows[id].provider && row.status == s.rows[id].status
  {
    hide Safe, LeaseEnd, Requested, RowFree, RowFreeFor, IsPlan, IsShedList, Remove, FindKey, FindKeyHost, CollectKey,
         CheckAccount, SelectWarm, DraftHost, CheckProvider, AddHost, AddKey, LoadLoser;
  }

  lemma RevivedWasLapsed(c: Config, s: State, a: Action, id: HostId, provider: Provider)
    requires Safe(c, s) && Enabled(c, s, a) && id in s.rows
    requires id in LiveOfProvider(Next(c, s, a), provider) && id !in LiveOfProvider(s, provider)
    ensures id in Next(c, s, a).rows && !Live(s.rows[id], s.now)
    ensures Next(c, s, a).rows[id].expiresAt != s.rows[id].expiresAt && Next(c, s, a).rows[id].status != Error
    ensures Next(c, s, a).rows[id].provider == s.rows[id].provider
  {
    TransitionSound(c, s, a);
    RowIsOld(c, s, id);
    RowEvolves(c, s, a, id);
    hide Safe, Transition, Gains, SparesOthers, ProcOk, RowOk;
  }

  lemma RowIsOld(c: Config, s: State, id: HostId)
    requires Safe(c, s) && id in s.rows
    ensures id in s.past
  {
    hide ProcsOk, LocksExclusive, RowOk;
  }

  /** Whoever extends a row is one of those that NewLease names: a failure errors the row instead. */
  lemma OwnerWrites(c: Config, s: State, a: Action, id: HostId)
    requires Safe(c, s) && Enabled(c, s, a) && id in s.rows && id in Next(c, s, a).rows
    requires Next(c, s, a).rows[id].expiresAt != s.rows[id].expiresAt && Next(c, s, a).rows[id].status != Error
    ensures NewLease(c, s, a).Some? && NewLease(c, s, a).value.0 == id
  {
    hide Safe, Transition, Commit, RenewedRow, ClaimedRow, StampedRow, ReleasedRow;
    LeaseChangesAreOwned(c, s, a, id);
    if a.Go? {
      GoesOn(c, s, a);
      if s.procs[a.p].Creator? && s.procs[a.p].pc.Provision? && s.procs[a.p].pc.phase.MarkFailed? {
        FailureErrs(c, s, a, id);
      }
    }
  }

  lemma FailureErrs(c: Config, s: State, a: Action, id: HostId)
    requires Enabled(c, s, a) && a.Go? && a.p in s.procs && s.procs[a.p].Creator?
    requires s.procs[a.p].pc.Provision? && s.procs[a.p].pc.phase.MarkFailed? && s.procs[a.p].pc.draft.id == id
    requires id in s.rows && id in Next(c, s, a).rows
    ensures Next(c, s, a).rows[id].status == Error
  {
    hide RowFreeFor, Remove, IsPlan, IsShedList;
  }

  lemma TransitionInsertsSafely(c: Config, s: State, a: Action)
    requires Safe(c, s) && Enabled(c, s, a)
    ensures InsertStep(s, Transition(c, s, a).value)
  {
    TransitionInserts(c, s, a);
    hide Transition, Safe, InsertStep;
  }

  /** Only the clock moves the clock. */
  lemma WritesInNoTime(c: Config, s: State, a: Action)
    requires Safe(c, s) && Enabled(c, s, a)
    ensures Transition(c, s, a).value.row.PutRow? ==> Transition(c, s, a).value.clock.None?
  {
    hide Advance, Remove, Safe, StepSound, IsPlan, IsShedList;
    if a.Go? {
      GoClock(c, s, a.p, a.choice);
    }
  }

  lemma GoClock(c: Config, s: State, p: Pid, choice: Choice)
    requires Safe(c, s) && p in s.procs
    ensures match s.procs[p]
            case Creator(req, pc) =>
              var e := Advance(c, s, p, req, pc, choice); e.Some? ==> e.value.clock.None?
            case Deleter(stage) =>
              var e := Remove(c, s, p, stage, choice); e.Some? ==> e.value.clock.None?
  {
    hide Advance, Remove, PutFits, SparesOthers, Gains, ProcOk;
    match s.procs[p]
    case Creator(req, pc) => AdvanceSound(c, s, p, req, pc, choice);
    case Deleter(stage) =>
      ProcOfDeleter(c, s, p);
      RemoveSound(c, s, p, stage, choice);
  }

  lemma ProcOfDeleter(c: Config, s: State, p: Pid)
    requires Safe(c, s) && p in s.procs && s.procs[p].Deleter?
    ensures DeleterOk(s, s.procs[p].stage)
  {
    assert ProcOk(c, s, s.procs[p]);
  }

  lemma LimitByEffect(c: Config, s: State, e: Effect, provider: Provider)
    requires EffectSound(c, s, e) && InsertStep(s, e) && (e.row.PutRow? ==> e.clock.None?)
    requires provider in c.hostLimits && WithinProvider(c, s, provider)
    ensures |LiveOfProvider(Commit(s, e), provider)| <= c.hostLimits[provider] <==>
            !Revives(s, Commit(s, e), provider) || |LiveOfProvider(s, provider)| < c.hostLimits[provider]
  {
    var t := Commit(s, e);
    var was, live := LiveOfProvider(s, provider), LiveOfProvider(t, provider);
    RevivesByRow(c, s, e, provider);
    if e.row.PutRow? && e.row.id in live && e.row.id !in was {
      OneMore(live, was, e.row.id);
      if e.row.id in s.rows {
        ReviveCounts(c, s, e, provider);
      } else {
        assert ProviderLock(s.procs[e.proc.p]) == Some(provider);
      }
    } else {
      Subset(live, was);
    }
    hide EffectSound, LiveOfProvider;
  }

  /** A step writes at most one row, and the clock does not revive. */
  lemma RevivesByRow(c: Config, s: State, e: Effect, provider: Provider)
    requires EffectSound(c, s, e)
    ensures forall id :: id in LiveOfProvider(Commit(s, e), provider) && id !in LiveOfProvider(s, provider) ==>
              e.row.PutRow? && e.row.id == id
  {
    hide Gains, SparesOthers, ProcOk, RowOk;
  }

  lemma ReviveCounts(c: Config, s: State, e: Effect, provider: Provider)
    requires EffectSound(c, s, e) && e.row.PutRow? && e.row.id in s.rows && e.clock.None?
    requires e.row.id in LiveOfProvider(Commit(s, e), provider) && e.row.id !in LiveOfProvider(s, provider)
    ensures |LiveOfProvider(Commit(s, e), provider)| == |LiveOfProvider(s, provider)| + 1
    ensures Revives(s, Commit(s, e), provider)
  {
    var was, live := LiveOfProvider(s, provider), LiveOfProvider(Commit(s, e), provider);
    assert live == was + {e.row.id};
    hide Gains, SparesOthers, ProcOk, RowOk;
  }
}
