/** A request that loses the race for its key lets its own host go, and answers with the winner. */
module HostLosers {
  import opened Wrappers
  import opened HostModel
  import opened HostProtocol
  import opened HostSafety
  import opened HostClaims
  import opened HostIdempotency
  import opened HostLeases

  /** A loser between its release and its answer. */
  predicate AwaitsWinner(pc: Pc, own: HostId) {
    (pc.LookupKey? || pc.ReadKeyHost? || pc.DropStaleKey?) && pc.lost == Some(own)
  }

  /** The step in which a loser lets go: it finds its row gone, or writes it. */
  ghost predicate LetsGo(s: State, a: Action, p: Pid, own: HostId) {
    a.Go? && a.p == p && p in s.procs && s.procs[p].Creator?
    && (s.procs[p].pc.ReadLoser? || s.procs[p].pc.WriteLoser?) && s.procs[p].pc.own == own
  }

  /** Deleted; or back in the pool with the claim and the account cleared; or, if it never was of the pool, expired. */
  predicate GoneOrReleased(s: State, own: HostId) {
    own in s.rows ==>
      var row := s.rows[own];
      if row.poolMember then row.claimedAt.None? && row.account.None?
      else row.expiresAt.Some? && row.expiresAt.value <= s.now
  }

  /** Someone leases the row anew: a renewal, or a claim that wins. */
  ghost predicate Relets(s: State, a: Action, own: HostId) {
    || (a.Renew? && a.id == own)
    || (a.Go? && a.p in s.procs && s.procs[a.p].Creator? && s.procs[a.p].pc.ClaimWarm? && s.procs[a.p].pc.id == own
        && own in s.rows && s.rows[own].claimedAt.None?)
  }

  ghost predicate NobodyHolds(s: State, own: HostId) {
    forall q :: q in s.procs ==> Holds(s.procs[q]) != Some(own)
  }

  /** The own host after the release, as long as nobody leases it anew. */
  ghost predicate LetGo(s: State, own: HostId) {
    && own in s.past && NobodyHolds(s, own)
    && GoneOrReleased(s, own)
    && (own in s.rows ==> s.rows[own].status == Active)
  }

  // ---- The step of the release ----

  /** What the steps of a loser do to the tables. */
  lemma WriteLoserStep(c: Config, s: State, p: Pid, choice: Choice, req: Request, pc: Pc)
    requires p in s.procs && s.procs[p] == Creator(req, pc) && pc.WriteLoser? && Enabled(c, s, Go(p, choice))
    ensures var t := Next(c, s, Go(p, choice));
            && t.now == s.now && s.past <= t.past
            && (pc.own !in s.rows ==> t.rows == s.rows && t.procs == s.procs[p := Creator(req, Failed)])
            && (pc.own in s.rows ==>
                  && t.rows == s.rows[pc.own := ReleasedRow(c, s.rows[pc.own], pc.wasClaimed, pc.now)]
                  && t.procs == s.procs[p := Creator(req, LookupKey(Some(pc.own)))] && pc.own in t.past)
  {
    hide ReleasedRow, Remove, Build, RowFreeFor, IsPlan, IsShedList, LeaseEnd;
  }

  lemma ReadLoserStep(c: Config, s: State, p: Pid, choice: Choice, req: Request, pc: Pc)
    requires p in s.procs && s.procs[p] == Creator(req, pc) && pc.ReadLoser? && Enabled(c, s, Go(p, choice))
    ensures var t := Next(c, s, Go(p, choice));
            && t.now == s.now && t.past == s.past && t.rows == s.rows
            && p in t.procs && t.procs == s.procs[p := t.procs[p]]
            && t.procs[p] == Creator(req, if pc.own in s.rows then WriteLoser(pc.own, s.rows[pc.own].claimedAt.Some?, s.now)
                                          else LookupKey(Some(pc.own)))
  {
    hide Remove, Build, IsPlan, IsShedList;
  }

  lemma LoserFacts(c: Config, s: State, p: Pid, own: HostId)
    requires Claims(c, s) && p in s.procs && Holds(s.procs[p]) == Some(own)
    ensures ProcOk(c, s, s.procs[p]) && HoldOk(s, s.procs[p])
    ensures forall q :: q in s.procs && q != p ==> Holds(s.procs[q]) != Some(own)
  {
    hide ProcOk, HoldOk, Holds;
  }

  lemma HoldsOwn(c: Config, s: State, p: Pid)
    requires Claims(c, s) && p in s.procs && s.procs[p].Creator? && (s.procs[p].pc.ReadLoser? || s.procs[p].pc.WriteLoser?)
    ensures Holds(s.procs[p]) == Some(s.procs[p].pc.own) && s.procs[p].pc.own in s.past
  {
    SafeProc(c, s, p);
    hide Claims;
  }

  /** At the moment of the write the row is released: this is what _release_idempotency_loser is for. */
  lemma ReleaseWritesLoser(c: Config, s: State, p: Pid, choice: Choice)
    requires Claims(c, s) && p in s.procs && s.procs[p].Creator? && s.procs[p].pc.WriteLoser?
    requires Enabled(c, s, Go(p, choice)) && s.procs[p].pc.own in s.rows
    ensures var t := Next(c, s, Go(p, choice));
            s.procs[p].pc.own in t.rows && GoneOrReleased(t, s.procs[p].pc.own)
  {
    hide Claims, Transition, Commit, ProcOk, HoldOk, Holds, ReleasedRow;
    var req, pc := s.procs[p].req, s.procs[p].pc;
    HoldsOwn(c, s, p);
    LoserFacts(c, s, p, pc.own);
    WriteLoserStep(c, s, p, choice, req, pc);
    ReleaseOfOwn(c, s, p);
  }

  lemma ReleaseOfOwn(c: Config, s: State, p: Pid)
    requires p in s.procs && s.procs[p].Creator? && s.procs[p].pc.WriteLoser? && s.procs[p].pc.own in s.rows
    requires ProcOk(c, s, s.procs[p]) && HoldOk(s, s.procs[p])
    ensures var pc := s.procs[p].pc;
            var row := ReleasedRow(c, s.rows[pc.own], pc.wasClaimed, pc.now);
            && row.status == Active
            && (if row.poolMember then row.claimedAt.None? && row.account.None?
                else row.expiresAt.Some? && row.expiresAt.value <= s.now)
  {
    hide LeaseEnd;
  }

  lemma LetGoHolds(c: Config, s: State, a: Action, p: Pid, own: HostId)
    requires Claims(c, s) && Enabled(c, s, a) && LetsGo(s, a, p, own)
    requires p in Next(c, s, a).procs && Next(c, s, a).procs[p].Creator?
    requires AwaitsWinner(Next(c, s, a).procs[p].pc, own)
    ensures LetGo(Next(c, s, a), own)
  {
    hide Claims, Transition, Commit, ProcOk, HoldOk, ReleasedRow;
    var req, pc := s.procs[p].req, s.procs[p].pc;
    HoldsOwn(c, s, p);
    LoserFacts(c, s, p, own);
    if pc.WriteLoser? {
      WriteLoserStep(c, s, p, a.choice, req, pc);
      if own in s.rows {
        ReleaseOfOwn(c, s, p);
      }
    } else {
      ReadLoserStep(c, s, p, a.choice, req, pc);
    }
  }

  // ---- Every other step keeps it, unless it leases the row anew ----

  lemma AdvanceClaims(c: Config, s: State, p: Pid, req: Request, pc: Pc, choice: Choice)
    requires Advance(c, s, p, req, pc, choice).Some?
    ensures var change := Advance(c, s, p, req, pc, choice).value.row;
            change.PutRow? && change.id in s.rows && s.rows[change.id].claimedAt.None? && change.row.claimedAt.Some? ==>
              pc.ClaimWarm? && pc.id == change.id
  {
    hide LeaseEnd, Live, IsCandidate, LiveOfProvider, LiveOfAccount, RowFreeFor, Build;
    if pc.Provision? {
      BuildClaims(c, s, p, req, pc.draft, pc.phase, choice);
    }
  }

  lemma BuildClaims(c: Config, s: State, p: Pid, req: Request, d: Draft, phase: Phase, choice: Choice)
    ensures var e := Build(c, s, p, req, d, phase, choice);
            e.Some? && e.value.row.PutRow? && e.value.row.id in s.rows ==>
              e.value.row.row.claimedAt == s.rows[e.value.row.id].claimedAt
  {
    hide LeaseEnd, RowFreeFor;
  }

  lemma ClaimRelets(c: Config, s: State, a: Action, own: HostId)
    requires Enabled(c, s, a) && own in s.rows && own in Next(c, s, a).rows
    requires s.rows[own].claimedAt.None? && Next(c, s, a).rows[own].claimedAt.Some?
    ensures Relets(s, a, own)
  {
    hide Advance, LeaseEnd, IsPlan, IsShedList, RowFreeFor;
    if a.Go? {
      match s.procs[a.p]
      case Creator(req, pc) => AdvanceClaims(c, s, a.p, req, pc, a.choice);
      case Deleter(stage) =>
    }
  }

  lemma NobodyTakes(c: Config, s: State, a: Action, own: HostId)
    requires Claims(c, s) && Enabled(c, s, a) && own in s.past && NobodyHolds(s, own) && !Relets(s, a, own)
    ensures NobodyHolds(Next(c, s, a), own)
  {
    hide Transition, Holds, HoldOk, Relets, CustodyStep, ProcOk;
    TransitionCustody(c, s, a);
    var e := Transition(c, s, a).value;
    if TakesClaim(s, e, own) {
      ClaimRelets(c, s, a, own);
    }
    NobodyTakesIn(s, e, own);
  }

  predicate TakesClaim(s: State, e: Effect, own: HostId) {
    e.row.PutRow? && e.row.id == own && own in s.rows && s.rows[own].claimedAt.None? && e.row.row.claimedAt.Some?
  }

  lemma NobodyTakesIn(s: State, e: Effect, own: HostId)
    requires CustodyStep(s, e) && own in s.used && NobodyHolds(s, own) && !TakesClaim(s, e, own)
    ensures NobodyHolds(Commit(s, e), own)
  {
    hide Holds, HoldOk;
  }

  lemma ClaimKept(c: Config, s: State, a: Action, own: HostId)
    requires Claims(c, s) && Enabled(c, s, a) && NobodyHolds(s, own) && !Relets(s, a, own)
    requires own in s.rows && own in Next(c, s, a).rows && s.rows[own].claimedAt.None?
    ensures Next(c, s, a).rows[own].claimedAt == s.rows[own].claimedAt
    ensures Next(c, s, a).rows[own].account == s.rows[own].account
  {
    TransitionCustody(c, s, a);
    if Next(c, s, a).rows[own].claimedAt.Some? {
      ClaimRelets(c, s, a, own);
    }
    hide Transition, Claims, Holds, HoldOk, Relets;
  }

  /** On an active row that nobody holds, only its own tick may still stamp the lease. */
  lemma LeaseKept(c: Config, s: State, a: Action, own: HostId)
    requires Claims(c, s) && Enabled(c, s, a) && NobodyHolds(s, own) && !Relets(s, a, own)
    requires own in s.rows && own in Next(c, s, a).rows && s.rows[own].status == Active && !s.rows[own].poolMember
    ensures Next(c, s, a).rows[own].expiresAt == s.rows[own].expiresAt
  {
    hide Transition, Commit;
    if Next(c, s, a).rows[own].expiresAt != s.rows[own].expiresAt {
      LeaseChangesAreOwned(c, s, a, own);
      if a.Go? {
        GoesOn(c, s, a);
      }
      NotOwned(c, s, a, own);
    }
  }

  lemma NotOwned(c: Config, s: State, a: Action, own: HostId)
    requires Claims(c, s) && NobodyHolds(s, own) && !Relets(s, a, own)
    requires own in s.rows && s.rows[own].status == Active && !s.rows[own].poolMember
    requires a.Go? ==> a.p in s.procs
    ensures !(a.Renew? && a.id == own)
    ensures !(a.Go? && s.procs[a.p].Creator? && MayWriteLease(s, s.procs[a.p].pc, own))
  {
    if a.Go? {
      SafeProc(c, s, a.p);
    }
    hide Claims;
  }

  lemma LetGoKept(c: Config, s: State, a: Action, own: HostId)
    requires Claims(c, s) && Enabled(c, s, a) && LetGo(s, own) && !Relets(s, a, own)
    ensures LetGo(Next(c, s, a), own)
  {
    hide Transition, Commit, Claims, Relets, NobodyHolds;
    NobodyTakes(c, s, a, own);
    ClockAndPast(c, s, a, own);
    var t := Next(c, s, a);
    if own in t.rows {
      IsSafe(c, s);
      RowEvolves(c, s, a, own);
      if s.rows[own].poolMember {
        ClaimKept(c, s, a, own);
      } else {
        LeaseKept(c, s, a, own);
      }
    }
  }

  lemma IsSafe(c: Config, s: State)
    requires Claims(c, s)
    ensures Safe(c, s)
  {
  }

  lemma ClockAndPast(c: Config, s: State, a: Action, own: HostId)
    requires Claims(c, s) && Enabled(c, s, a) && own in s.past
    ensures s.now <= Next(c, s, a).now && own in Next(c, s, a).past
  {
    TransitionSound(c, s, a);
    hide Transition, Claims, Gains, SparesOthers, ProcOk;
  }

  // ---- Runs ----

  ghost predicate Awaits(s: State, p: Pid, own: HostId) {
    p in s.procs && s.procs[p].Creator? && AwaitsWinner(s.procs[p].pc, own)
  }

  /** No loser is past its release, as at the start of the service. */
  ghost predicate NobodyAwaits(s: State) {
    forall p, own :: !Awaits(s, p, own)
  }

  /** Some step of another process leases the row anew after step `i` and before step `j`. */
  ghost predicate RelettedByOther(states: seq<State>, actions: seq<Action>, i: nat, j: nat, p: Pid, own: HostId)
    requires j <= |actions| < |states|
  {
    exists m :: i < m < j && Relets(states[m], actions[m], own) && (actions[m].Go? ==> actions[m].p != p)
  }

  /** The loser let go in step `i`, and from then to state `j` its host is gone or released, unless another process has
      leased it anew. */
  ghost predicate LetGoSince(states: seq<State>, actions: seq<Action>, i: nat, j: nat, p: Pid, own: HostId)
    requires j <= |actions| < |states|
  {
    && i < j && LetsGo(states[i], actions[i], p, own) && LetGo(states[i + 1], own)
    && (LetGo(states[j], own) || RelettedByOther(states, actions, i, j, p, own))
  }

  lemma AdvanceAwaits(c: Config, s: State, p: Pid, req: Request, pc: Pc, choice: Choice, own: HostId)
    requires Advance(c, s, p, req, pc, choice).Some?
    ensures var change := Advance(c, s, p, req, pc, choice).value.proc;
            && change.SetProc? && change.p == p && change.proc.Creator?
            && (AwaitsWinner(change.proc.pc, own) ==>
                  AwaitsWinner(pc, own) || ((pc.ReadLoser? || pc.WriteLoser?) && pc.own == own))
  {
    hide LeaseEnd, Live, IsCandidate, LiveOfProvider, LiveOfAccount, RowFreeFor, ReleasedRow;
  }

  lemma AwaitsBefore(c: Config, s: State, a: Action, p: Pid, own: HostId)
    requires Enabled(c, s, a) && Awaits(Next(c, s, a), p, own)
    ensures Awaits(s, p, own) || LetsGo(s, a, p, own)
  {
    hide Advance, LeaseEnd, IsPlan, IsShedList;
    if a.Go? {
      match s.procs[a.p]
      case Creator(req, pc) => AdvanceAwaits(c, s, a.p, req, pc, a.choice, own);
      case Deleter(stage) =>
    }
  }

  /** Every loser that awaits its winner has let its own host go, at a step of the run. */
  lemma {:induction false} LoserLetGo(c: Config, states: seq<State>, actions: seq<Action>, j: nat, p: Pid, own: HostId)
    returns (i: nat)
    requires IsRun(c, states, actions) && Claims(c, states[0]) && NobodyAwaits(states[0])
    requires j < |states| && Awaits(states[j], p, own)
    ensures LetGoSince(states, actions, i, j, p, own)
  {
    hide Claims, Transition, Commit, LetGo, LetsGo, Awaits, Relets;
    assert j > 0;
    var s, a := states[j - 1], actions[j - 1];
    assert Enabled(c, s, a) && states[j] == Next(c, s, a);
    RunClaims(c, states, actions, j - 1);
    AwaitsBefore(c, s, a, p, own);
    if Awaits(s, p, own) {
      i := LoserLetGo(c, states, actions, j - 1, p, own);
      if LetGo(s, own) && !Relets(s, a, own) {
        LetGoKept(c, s, a, own);
      } else if LetGo(s, own) {
        AwaitsReletsNothing(s, a, p, own);
        assert RelettedByOther(states, actions, i, j, p, own);
      } else {
        var m :| i < m < j - 1 && Relets(states[m], actions[m], own) && (actions[m].Go? ==> actions[m].p != p);
        assert RelettedByOther(states, actions, i, j, p, own);
      }
    } else {
      i := j - 1;
      AwaitsHere(states[j], p, own);
      LetGoHolds(c, s, a, p, own);
    }
  }

  lemma AwaitsReletsNothing(s: State, a: Action, p: Pid, own: HostId)
    requires Awaits(s, p, own) && Relets(s, a, own)
    ensures a.Go? ==> a.p != p
  {
  }

  lemma AwaitsHere(s: State, p: Pid, own: HostId)
    requires Awaits(s, p, own)
    ensures p in s.procs && s.procs[p].Creator? && AwaitsWinner(s.procs[p].pc, own)
  {
  }

  /** A losing request answers with the winner's host and not its own. It has let its own go in a step of its own, and at
      the answer that host is deleted, expired, or back in the pool with the claim and the account cleared, unless a step
      of another process leased it anew in between. */
  lemma LoserReturnsWinner(c: Config, states: seq<State>, actions: seq<Action>, k: Key, j: nat, p: Pid, own: HostId)
    returns (i: nat)
    requires IsRun(c, states, actions) && Claims(c, states[0]) && NobodyAwaits(states[0]) && j < |actions|
    requires Converging(states[0], k) && RecordStays(states, k)
    requires p in states[j].procs && states[j].procs[p].Creator? && states[j].procs[p].req.key == Some(k)
    requires states[j].procs[p].pc.ReadKeyHost? && states[j].procs[p].pc.lost == Some(own)
    requires actions[j].Go? && actions[j].p == p
    requires p in states[j + 1].procs && states[j + 1].procs[p].Creator? && states[j + 1].procs[p].pc.Returned?
    ensures k in states[j].keys && states[j + 1].procs[p].pc.host == states[j].keys[k].host != own
    ensures i < j && LetsGo(states[i], actions[i], p, own)
    ensures GoneOrReleased(states[j + 1], own) || RelettedByOther(states, actions, i, j, p, own)
  {
    hide Claims, Transition, Commit, Converging, RecordStays, LetsGo, Relets;
    i := LoserLetGo(c, states, actions, j, p, own);
    RunConverges(c, states, actions, k, j);
    assert Enabled(c, states[j], actions[j]) && states[j + 1] == Next(c, states[j], actions[j]);
    AnswerOfLoser(c, states[j], actions[j], k, p, own);
  }

  lemma AnswerOfLoser(c: Config, s: State, a: Action, k: Key, p: Pid, own: HostId)
    requires Enabled(c, s, a) && a.Go? && a.p == p && Converging(s, k)
    requires p in s.procs && s.procs[p].Creator? && s.procs[p].req.key == Some(k)
    requires s.procs[p].pc.ReadKeyHost? && s.procs[p].pc.lost == Some(own)
    ensures var t := Next(c, s, a);
            && t.rows == s.rows && t.now == s.now
            && (p in t.procs && t.procs[p].Creator? && t.procs[p].pc.Returned? ==>
                  k in s.keys && t.procs[p].pc.host == s.keys[k].host != own)
  {
    assert Informed(s, k, s.procs[p]);
    hide Converging, Remove, Build, IsPlan, IsShedList;
  }
}
