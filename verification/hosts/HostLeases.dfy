/** Leases: what the janitor can rely on, and what the lease stamp and a claim may write. */
module HostLeases {
  import opened Wrappers
  import opened HostModel
  import opened HostProtocol
  import opened HostSafety

  /** Nothing leaks past the janitor: in every state of every run, crashes included, a row that is not active expires,
      an errored row has expired, and only an active host that was asked for as permanent, on a provider without a
      maximum lifetime, has no end. Every lease that a claim, stamp, renewal or pool return wrote is within the
      lifetime. */
  lemma NothingLeaks(c: Config, states: seq<State>, actions: seq<Action>, i: nat, id: HostId)
    requires IsRun(c, states, actions) && Safe(c, states[0]) && i < |states| && id in states[i].rows
    ensures var row := states[i].rows[id];
            && (row.status != Active ==> row.expiresAt.Some?)
            && (row.status == Error ==> row.expiresAt.value <= states[i].now)
            && (row.expiresAt.None? ==> row.status == Active && row.permanent && row.provider !in c.maxLifetime)
            && (row.writer in {Claim, Stamp, Renewal, PoolReturn} ==> WithinLifetime(c, row))
  {
    RunSafe(c, states, actions, i);
    hide IsRun, ProcsOk, LocksExclusive;
  }

  /** One step: a row that is there before and after evolves, and a deleted id never comes back. */
  lemma RowEvolves(c: Config, s: State, a: Action, id: HostId)
    requires Safe(c, s) && Enabled(c, s, a) && id in s.past && id in Next(c, s, a).rows
    ensures id in s.rows
    ensures Next(c, s, a).rows[id] == s.rows[id] || Evolves(s.rows[id], Next(c, s, a).rows[id])
  {
    TransitionSound(c, s, a);
    hide Transition, Safe, Gains, SparesOthers, ProcOk, RowOk;
  }

  /** ACTIVE never turns to ERROR, and an errored row keeps its status and its end until it is deleted. */
  lemma {:induction false} OutcomesAreFinal(c: Config, states: seq<State>, actions: seq<Action>,
                                            i: nat, j: nat, id: HostId)
    requires IsRun(c, states, actions) && Safe(c, states[0]) && i <= j < |states|
    requires id in states[i].rows && id in states[j].rows
    ensures states[i].rows[id].status == Active ==> states[j].rows[id].status == Active
    ensures states[i].rows[id].status == Error ==>
              states[j].rows[id].status == Error && states[j].rows[id].expiresAt == states[i].rows[id].expiresAt
  {
    hide Safe, Transition, Commit, RowsOk;
    if i == j {
    } else {
      RunSafe(c, states, actions, j - 1);
      PastGrows(c, states, actions, i, j - 1, id);
      assert Enabled(c, states[j - 1], actions[j - 1]) && states[j] == Next(c, states[j - 1], actions[j - 1]);
      RowEvolves(c, states[j - 1], actions[j - 1], id);
      OutcomesAreFinal(c, states, actions, i, j - 1, id);
    }
  }

  lemma {:induction false} PastGrows(c: Config, states: seq<State>, actions: seq<Action>, i: nat, j: nat, id: HostId)
    requires IsRun(c, states, actions) && Safe(c, states[0]) && i <= j < |states| && id in states[i].rows
    ensures id in states[j].past
  {
    hide Transition, ProcsOk, LocksExclusive, RowOk;
    if i < j {
      PastGrows(c, states, actions, i, j - 1, id);
    } else {
      RunSafe(c, states, actions, i);
    }
  }

  /** A deleted host never comes back. */
  lemma {:induction false} StaysGone(c: Config, states: seq<State>, actions: seq<Action>, i: nat, j: nat, id: HostId)
    requires IsRun(c, states, actions) && Safe(c, states[0]) && i <= j < |states|
    requires id in states[i].past && id !in states[i].rows
    ensures id in states[j].past && id !in states[j].rows
  {
    hide Safe, Transition, Commit, RowsOk;
    if i == j {
    } else {
      StaysGone(c, states, actions, i, j - 1, id);
      RunSafe(c, states, actions, j - 1);
      assert Enabled(c, states[j - 1], actions[j - 1]) && states[j] == Next(c, states[j - 1], actions[j - 1]);
      PastStays(c, states[j - 1], actions[j - 1], id);
      if id in states[j].rows {
        RowEvolves(c, states[j - 1], actions[j - 1], id);
      }
    }
  }

  lemma PastStays(c: Config, s: State, a: Action, id: HostId)
    requires Enabled(c, s, a) && id in s.past
    ensures id in Next(c, s, a).past
  {
    hide Transition;
  }

  /** The stamp against concurrent writers. A row nobody wrote since its insert gets the lease that was asked for; a
      lease that someone wrote stays, unless it equals the safety term; and the stamp replaces exactly that term. */
  lemma StampSparesWriters(c: Config, s: State, p: Pid, choice: Choice)
    requires Safe(c, s) && p in s.procs && s.procs[p].Creator?
    requires s.procs[p].pc.Provision? && s.procs[p].pc.phase.StampLease?
    requires s.procs[p].pc.draft.id in s.rows && Enabled(c, s, Go(p, choice))
    ensures var d, req := s.procs[p].pc.draft, s.procs[p].req;
            var was, row := s.rows[d.id], Next(c, s, Go(p, choice)).rows[d.id];
            && (was.writer == Initial ==> was.expiresAt == Some(d.initial) && row.writer == Stamp)
            && (was.writer != Initial && was.expiresAt != Some(d.initial) ==> row == was)
            && (row.writer == Stamp && row != was ==> was.expiresAt == Some(d.initial))
            && (was.expiresAt == Some(d.initial) ==>
                  EndsAsRequested(c, was.provider, was.createdAt, req.lease, s.now, row.expiresAt))
  {
    assert ProcOk(c, s, s.procs[p]);
    var was := s.rows[s.procs[p].pc.draft.id];
    LeaseEndIsAsRequested(c, was.provider, was.createdAt, s.procs[p].req.lease, s.now);
    hide LeaseEnd, Safe, LocksExclusive, Requested, WithinLifetime, EndsAsRequested;
  }

  /** A claim writes the caller's lease; it is an explicit end exactly, also when the provider has a maximum lifetime. */
  lemma ClaimGetsItsEnd(c: Config, s: State, p: Pid, choice: Choice)
    requires Safe(c, s) && p in s.procs && s.procs[p].Creator? && s.procs[p].pc.ClaimWarm?
    requires Enabled(c, s, Go(p, choice))
    requires s.procs[p].pc.id in s.rows && s.rows[s.procs[p].pc.id].claimedAt.None?
    ensures var req, id := s.procs[p].req, s.procs[p].pc.id;
            var row := Next(c, s, Go(p, choice)).rows[id];
            && row.claimedAt.Some? && row.account == req.account
            && (req.lease.Until? ==> row.expiresAt == Some(req.lease.end))
            && EndsAsRequested(c, row.provider, row.createdAt, req.lease, s.now, row.expiresAt)
            && WithinLifetime(c, row)
  {
    assert ProcOk(c, s, s.procs[p]);
    hide LocksExclusive, RowsOk, ProcsOk;
  }

  /** Which creator step may change the lease of row `id`. */
  predicate MayWriteLease(s: State, pc: Pc, id: HostId)
    requires id in s.rows
  {
    || (pc.ClaimWarm? && pc.id == id && s.rows[id].claimedAt.None?)
    || (pc.WriteLoser? && pc.own == id)
    || (pc.Provision? && pc.draft.id == id && pc.phase.MarkFailed?)
    || (pc.Provision? && pc.draft.id == id && pc.phase.StampLease? && s.rows[id].expiresAt == Some(pc.draft.initial))
  }

  lemma AdvanceWritesLease(c: Config, s: State, p: Pid, req: Request, pc: Pc, choice: Choice)
    requires RowsOk(c, s) && CreatorOk(c, s, req, pc) && Advance(c, s, p, req, pc, choice).Some?
    ensures var change := Advance(c, s, p, req, pc, choice).value.row;
            change.PutRow? && change.id in s.rows && change.row.expiresAt != s.rows[change.id].expiresAt ==>
              MayWriteLease(s, pc, change.id)
  {
    if pc.Provision? {
      BuildWritesLease(c, s, p, req, pc, choice);
      hide Build, MayWriteLease;
    } else {
      hide Build, LeaseEnd, Live, IsCandidate, LiveOfProvider, LiveOfAccount, RowFreeFor, StatusFits, DraftFits, RowOk;
    }
  }

  lemma BuildWritesLease(c: Config, s: State, p: Pid, req: Request, pc: Pc, choice: Choice)
    requires pc.Provision?
    ensures var e := Build(c, s, p, req, pc.draft, pc.phase, choice);
            e.Some? && e.value.row.PutRow? && e.value.row.id in s.rows
            && e.value.row.row.expiresAt != s.rows[e.value.row.id].expiresAt ==>
              MayWriteLease(s, pc, e.value.row.id)
  {
    hide LeaseEnd, RowFreeFor;
  }

  /** No other step touches a lease: only a renewal of the row, its claim, the release by its loser, the failure of its
      creator, and the stamp of its creator while the row still carries the safety term. */
  lemma LeaseChangesAreOwned(c: Config, s: State, a: Action, id: HostId)
    requires Safe(c, s) && Enabled(c, s, a) && id in s.rows && id in Next(c, s, a).rows
    requires Next(c, s, a).rows[id].expiresAt != s.rows[id].expiresAt
    ensures || (a.Renew? && a.id == id)
            || (a.Go? && s.procs[a.p].Creator? && MayWriteLease(s, s.procs[a.p].pc, id))
  {
    hide Advance, Remove, LeaseEnd, IsPlan, IsShedList, RowFreeFor, Safe, CreatorOk, MayWriteLease;
    if a.Go? {
      match s.procs[a.p]
      case Creator(req, pc) =>
        SafeProc(c, s, a.p);
        AdvanceWritesLease(c, s, a.p, req, pc, a.choice);
      case Deleter(stage) => RemoveWritesNoLease(c, s, a.p, stage, a.choice);
    }
  }

  lemma SafeProc(c: Config, s: State, p: Pid)
    requires Safe(c, s) && p in s.procs
    ensures RowsOk(c, s) && ProcOk(c, s, s.procs[p])
  {
  }

  lemma RemoveWritesNoLease(c: Config, s: State, p: Pid, stage: Stage, choice: Choice)
    requires Remove(c, s, p, stage, choice).Some?
    ensures var change := Remove(c, s, p, stage, choice).value.row;
            change.PutRow? && change.id in s.rows ==> change.row.expiresAt == s.rows[change.id].expiresAt
  {
  }
}
