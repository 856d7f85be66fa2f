/** The lease stamp over a whole provisioning, from the insert of the row to the stamp. */
module HostStamp {
  import opened Wrappers
  import opened HostModel
  import opened HostProtocol
  import opened HostSafety
  import opened HostClaims
  import opened HostIdempotency
  import opened HostLeases
  import opened HostLosers

  predicate Builds(s: State, p: Pid, d: Draft) {
    p in s.procs && s.procs[p].Creator? && s.procs[p].pc.Provision? && s.procs[p].pc.draft == d
  }

  ghost predicate OthersKeepOff(s: State, p: Pid, id: HostId) {
    forall q :: q in s.procs && q != p ==> Holds(s.procs[q]) != Some(id) && !HasDraftOf(s.procs[q], id)
  }

  predicate HasDraftOf(proc: Proc, id: HostId) {
    DraftOf(proc).Some? && DraftOf(proc).value.id == id
  }

  /** Nobody has written the lease yet: the row carries its safety term, and only its creator has it in hand. */
  ghost predicate Unwritten(s: State, p: Pid, d: Draft) {
    && Builds(s, p, d) && OthersKeepOff(s, p, d.id)
    && (d.id in s.rows ==> s.rows[d.id].expiresAt == Some(d.initial))
  }

  /** The creator is past its row, so the draft is nobody's any more. */
  ghost predicate Undrafted(s: State, id: HostId) {
    forall q :: q in s.procs ==> !HasDraftOf(s.procs[q], id)
  }

  lemma UndraftedKept(c: Config, s: State, a: Action, id: HostId)
    requires Safe(c, s) && Enabled(c, s, a) && id in s.used && Undrafted(s, id)
    ensures Undrafted(Next(c, s, a), id) && id in Next(c, s, a).used
  {
    TransitionSound(c, s, a);
    hide Transition, Safe, PutFits, SparesOthers, ProcOk, DraftOf;
  }

  /** Nobody else gets hold of a row whose claim does not change hands. */
  lemma OthersStayOff(c: Config, s: State, a: Action, p: Pid, id: HostId)
    requires Claims(c, s) && Enabled(c, s, a) && id in s.used && OthersKeepOff(s, p, id) && !Relets(s, a, id)
    requires p in s.procs && HasDraftOf(s.procs[p], id)
    ensures OthersKeepOff(Next(c, s, a), p, id)
  {
    hide Transition, Holds, HoldOk, Relets, CustodyStep, ProcOk, DraftOf, EffectSound;
    TransitionCustody(c, s, a);
    TransitionSound(c, s, a);
    var e := Transition(c, s, a).value;
    if TakesClaim(s, e, id) {
      ClaimRelets(c, s, a, id);
    }
    OthersStayOffIn(c, s, e, p, id);
  }

  lemma OthersStayOffIn(c: Config, s: State, e: Effect, p: Pid, id: HostId)
    requires EffectSound(c, s, e) && CustodyStep(s, e) && id in s.used && OthersKeepOff(s, p, id) && !TakesClaim(s, e, id)
    ensures OthersKeepOff(Commit(s, e), p, id)
  {
    hide Holds, HoldOk, PutFits, SparesOthers, ProcOk, DraftOf;
  }

  /** While its creator has the row in hand, only that creator and a claim or renewal write its lease. */
  lemma LeaseUnwritten(c: Config, s: State, a: Action, p: Pid, d: Draft)
    requires Claims(c, s) && Enabled(c, s, a) && Unwritten(s, p, d) && !Relets(s, a, d.id)
    requires d.id in s.rows && d.id in Next(c, s, a).rows
    requires Next(c, s, a).rows[d.id].expiresAt != s.rows[d.id].expiresAt
    ensures a.Go? && a.p == p && (s.procs[p].pc.phase.MarkFailed? || s.procs[p].pc.phase.StampLease?)
  {
    hide Transition, Commit, Claims;
    IsSafe(c, s);
    LeaseChangesAreOwned(c, s, a, d.id);
    if a.Go? {
      GoesOn(c, s, a);
      if a.p != p && s.procs[a.p].Creator? && s.procs[a.p].pc.WriteLoser? {
        HoldsOwn(c, s, a.p);
      }
    }
  }

  lemma BuildMoves(c: Config, s: State, p: Pid, req: Request, d: Draft, phase: Phase, choice: Choice)
    requires Build(c, s, p, req, d, phase, choice).Some?
    ensures var change := Build(c, s, p, req, d, phase, choice).value.proc;
            && change.SetProc? && change.p == p && change.proc.Creator? && change.proc.req == req
            && (change.proc.pc.Provision? ==> change.proc.pc.draft == d)
            && (HasDraft(change.proc.pc) ==> change.proc.pc.Provision?)
            && (phase.MarkFailed? || phase.StampLease? ==> !HasDraft(change.proc.pc))
  {
    hide LeaseEnd, RowFreeFor;
  }

  lemma CreatorMoves(c: Config, s: State, a: Action, p: Pid, d: Draft)
    requires Enabled(c, s, a) && Builds(s, p, d)
    ensures var t := Next(c, s, a);
            && (p in t.procs && HasDraftOf(t.procs[p], d.id) ==> Builds(t, p, d))
            && (a.Go? && a.p == p && (s.procs[p].pc.phase.MarkFailed? || s.procs[p].pc.phase.StampLease?) ==>
                  p in t.procs && !HasDraftOf(t.procs[p], d.id))
  {
    ActorIsProcess(c, s, a);
    if a.Go? && a.p == p {
      BuildMoves(c, s, p, s.procs[p].req, d, s.procs[p].pc.phase, a.choice);
      hide Build, Remove;
    } else {
      hide Transition;
    }
  }

  lemma UnwrittenKept(c: Config, s: State, a: Action, p: Pid, d: Draft)
    requires Claims(c, s) && Enabled(c, s, a) && Unwritten(s, p, d) && !Relets(s, a, d.id)
    ensures Unwritten(Next(c, s, a), p, d) || Undrafted(Next(c, s, a), d.id)
    ensures d.id in Next(c, s, a).used
  {
    hide Transition, Commit, Claims, Relets, Holds;
    var t := Next(c, s, a);
    BuilderFacts(c, s, p, d);
    OthersStayOff(c, s, a, p, d.id);
    CreatorMoves(c, s, a, p, d);
    UsedAndPast(c, s, a, d.id);
    if d.id in t.rows {
      IsSafe(c, s);
      RowEvolves(c, s, a, d.id);
      if t.rows[d.id].expiresAt != s.rows[d.id].expiresAt {
        LeaseUnwritten(c, s, a, p, d);
      }
    }
  }

  lemma BuilderFacts(c: Config, s: State, p: Pid, d: Draft)
    requires Claims(c, s) && Builds(s, p, d)
    ensures d.id in s.used && d.id in s.past && HasDraftOf(s.procs[p], d.id)
  {
    SafeProc(c, s, p);
    hide Claims;
  }

  lemma UsedAndPast(c: Config, s: State, a: Action, id: HostId)
    requires Enabled(c, s, a) && id in s.used
    ensures id in Next(c, s, a).used
  {
    hide Transition;
  }

  /** The insert of the row starts it. */
  lemma InsertIsUnwritten(c: Config, s: State, a: Action, p: Pid, d: Draft)
    requires Claims(c, s) && Enabled(c, s, a) && a.Go? && a.p == p
    requires p in s.procs && s.procs[p].Creator? && s.procs[p].pc.InsertRow? && s.procs[p].pc.draft == d
    ensures var t := Next(c, s, a); d.id in t.used && (Unwritten(t, p, d) || Undrafted(t, d.id))
  {
    hide Claims, Transition, Commit, Holds, NewRow;
    OnlyDrafter(c, s, p, d);
    UsedAndPast(c, s, a, d.id);
    InsertForm(c, s, p, a.choice, s.procs[p].req, d);
    assert NewRow(s.procs[p].req, d).expiresAt == Some(d.initial) by {
      NewRowTerm(s.procs[p].req, d);
    }
  }

  lemma NewRowTerm(req: Request, d: Draft)
    ensures NewRow(req, d).expiresAt == Some(d.initial)
  {
  }

  lemma InsertForm(c: Config, s: State, p: Pid, choice: Choice, req: Request, d: Draft)
    requires Enabled(c, s, Go(p, choice)) && p in s.procs && s.procs[p].Creator? && s.procs[p].req == req
    requires s.procs[p].pc.InsertRow? && s.procs[p].pc.draft == d
    ensures var t := Next(c, s, Go(p, choice));
            || t.procs == s.procs[p := Creator(req, Failed)]
            || (t.procs == s.procs[p := Creator(req, Provision(d, CommitNetwork))] && t.rows == s.rows[d.id := NewRow(req, d)])
  {
    hide NewRow, Build, Remove, IsPlan, IsShedList;
  }

  lemma OnlyDrafter(c: Config, s: State, p: Pid, d: Draft)
    requires Claims(c, s) && p in s.procs && s.procs[p].Creator? && s.procs[p].pc.InsertRow? && s.procs[p].pc.draft == d
    ensures d.id in s.used && OthersKeepOff(s, p, d.id)
  {
    SafeProc(c, s, p);
    forall q | q in s.procs && q != p
      ensures Holds(s.procs[q]) != Some(d.id) && !HasDraftOf(s.procs[q], d.id)
    {
      assert HoldOk(s, s.procs[q]);
      assert DraftOf(s.procs[p]).Some?;
    }
    hide ProcsOk, LocksExclusive, RecordsOk, PoolOnly;
  }

  lemma {:induction false} UnwrittenUntil(c: Config, states: seq<State>, actions: seq<Action>, i: nat, j: nat, p: Pid,
                                          d: Draft)
    requires IsRun(c, states, actions) && Claims(c, states[0]) && i < j < |states|
    requires p in states[i].procs && states[i].procs[p].Creator? && states[i].procs[p].pc.InsertRow?
    requires states[i].procs[p].pc.draft == d && actions[i].Go? && actions[i].p == p
    requires forall m :: i < m < j ==> !Relets(states[m], actions[m], d.id)
    ensures d.id in states[j].used && (Unwritten(states[j], p, d) || Undrafted(states[j], d.id))
  {
    hide Claims, Transition, Commit, Unwritten, Undrafted, Relets;
    RunClaims(c, states, actions, j - 1);
    assert Enabled(c, states[j - 1], actions[j - 1]) && states[j] == Next(c, states[j - 1], actions[j - 1]);
    if i + 1 == j {
      InsertIsUnwritten(c, states[i], actions[i], p, d);
    } else {
      UnwrittenUntil(c, states, actions, i, j - 1, p, d);
      if Unwritten(states[j - 1], p, d) {
        UnwrittenKept(c, states[j - 1], actions[j - 1], p, d);
      } else {
        IsSafe(c, states[j - 1]);
        UndraftedKept(c, states[j - 1], actions[j - 1], d.id);
      }
    }
  }

  /** The stamp over a run, from the insert at `i` to the stamp at `j`. If no renewal and no claim reached the row in
      between, it ends at the lease that was asked for. A lease that someone wrote stays, and the one lease the stamp can
      overwrite is one that equals the safety term. */
  lemma StampOverRun(c: Config, states: seq<State>, actions: seq<Action>, i: nat, j: nat, p: Pid, d: Draft)
    requires IsRun(c, states, actions) && Claims(c, states[0]) && i < j < |actions|
    requires p in states[i].procs && states[i].procs[p].Creator? && states[i].procs[p].pc.InsertRow?
    requires states[i].procs[p].pc.draft == d && actions[i].Go? && actions[i].p == p
    requires Builds(states[j], p, d) && states[j].procs[p].pc.phase.StampLease? && d.id in states[j].rows
    requires actions[j].Go? && actions[j].p == p
    ensures d.id in states[j + 1].rows
    ensures var was, row := states[j].rows[d.id], states[j + 1].rows[d.id];
            && ((forall m :: i < m < j ==> !Relets(states[m], actions[m], d.id)) ==> was.expiresAt == Some(d.initial))
            && (was.expiresAt == Some(d.initial) ==>
                  && row == was.(expiresAt := row.expiresAt, writer := Stamp)
                  && EndsAsRequested(c, was.provider, was.createdAt, states[j].procs[p].req.lease, states[j].now, row.expiresAt))
            && (was.expiresAt != Some(d.initial) ==> row == was)
  {
    hide Claims, Transition, Commit, Undrafted, Relets, EndsAsRequested;
    RunClaims(c, states, actions, j);
    assert Enabled(c, states[j], actions[j]) && states[j + 1] == Next(c, states[j], actions[j]);
    StampStep(c, states[j], actions[j], p, d);
    if forall m :: i < m < j ==> !Relets(states[m], actions[m], d.id) {
      UnwrittenUntil(c, states, actions, i, j, p, d);
      BuilderFacts(c, states[j], p, d);
      if Undrafted(states[j], d.id) {
        DraftedNot(states[j], p, d.id);
      }
    }
  }

  lemma DraftedNot(s: State, p: Pid, id: HostId)
    requires Undrafted(s, id) && p in s.procs
    ensures !HasDraftOf(s.procs[p], id)
  {
  }

  lemma StampStep(c: Config, s: State, a: Action, p: Pid, d: Draft)
    requires Claims(c, s) && Enabled(c, s, a) && a.Go? && a.p == p
    requires Builds(s, p, d) && s.procs[p].pc.phase.StampLease? && d.id in s.rows
    ensures d.id in Next(c, s, a).rows
    ensures var was, row := s.rows[d.id], Next(c, s, a).rows[d.id];
            && (was.expiresAt == Some(d.initial) ==>
                  && row == was.(expiresAt := row.expiresAt, writer := Stamp)
                  && EndsAsRequested(c, was.provider, was.createdAt, s.procs[p].req.lease, s.now, row.expiresAt))
            && (was.expiresAt != Some(d.initial) ==> row == was)
  {
    hide Claims, Safe, Transition, Commit, EndsAsRequested, StampedRow;
    IsSafe(c, s);
    SafeProc(c, s, p);
    StampForm(c, s, p, a.choice, s.procs[p].req, d);
    StampWrites(c, s, s.procs[p].req, s.procs[p].pc, d);
  }

  lemma StampForm(c: Config, s: State, p: Pid, choice: Choice, req: Request, d: Draft)
    requires Enabled(c, s, Go(p, choice)) && p in s.procs && s.procs[p] == Creator(req, Provision(d, StampLease))
    requires d.id in s.rows
    ensures Next(c, s, Go(p, choice)).rows ==
            if s.rows[d.id].expiresAt == Some(d.initial) then s.rows[d.id := StampedRow(c, req, s.rows[d.id], d, s.now)]
            else s.rows
  {
    hide StampedRow, Remove, IsPlan, IsShedList, RowFreeFor;
  }

  lemma StampWrites(c: Config, s: State, req: Request, pc: Pc, d: Draft)
    requires CreatorOk(c, s, req, pc) && pc.Provision? && pc.draft == d && d.id in s.rows
    ensures var row := s.rows[d.id];
            var stamped := StampedRow(c, req, row, d, s.now);
            && stamped == row.(expiresAt := stamped.expiresAt, writer := Stamp)
            && EndsAsRequested(c, row.provider, row.createdAt, req.lease, s.now, stamped.expiresAt)
  {
    hide LeaseEnd, Requested, EndsAsRequested;
    LeaseEndIsAsRequested(c, req.provider, d.createdAt, req.lease, s.now);
  }
}
