/** What a request gets: a host of its own if it wants one, and the recorded host if its key has one. */
module HostOwn {
  import opened Wrappers
  import opened HostModel
  import opened HostProtocol
  import opened HostSafety
  import opened HostClaims
  import opened HostIdempotency
  import opened HostReachable

  // ---- A host of its own ----

  /** No warm host will do: it is customized, its provider has no pool, or it is a create of the pool itself. */
  predicate WantsOwn(c: Config, req: Request) {
    req.customized || req.provider !in c.targets || req.tick.Some?
  }

  /** The host that a request has inserted or claimed, and not given back. */
  function InHand(pc: Pc): (id: Option<HostId>) {
    match pc
    case Provision(d, _) => Some(d.id)
    case RecordKey(own) => Some(own)
    case ReadLoser(own) => Some(own)
    case WriteLoser(own, _, _) => Some(own)
    case Returned(host, held) => if held then Some(host) else None
    case _ => None
  }

  predicate AtPool(pc: Pc) {
    pc.PickWarm? || pc.ClaimWarm?
  }

  /** At step `i` the request `p` inserts the row `id`, which was not there. */
  ghost predicate Inserts(states: seq<State>, actions: seq<Action>, i: nat, p: Pid, req: Request, id: HostId) {
    && i < |actions| && i + 1 < |states|
    && actions[i].Go? && actions[i].p == p
    && p in states[i].procs && states[i].procs[p].Creator? && states[i].procs[p].req == req
    && id !in states[i].rows && id in states[i + 1].rows
  }

  lemma AdvanceWantsOwn(c: Config, s: State, p: Pid, req: Request, pc: Pc, choice: Choice)
    requires WantsOwn(c, req) && !AtPool(pc) && Advance(c, s, p, req, pc, choice).Some?
    ensures var e := Advance(c, s, p, req, pc, choice).value;
            && e.proc.SetProc? && e.proc.p == p && e.proc.proc.Creator? && e.proc.proc.req == req
            && !AtPool(e.proc.proc.pc)
            && (InHand(e.proc.proc.pc).Some? && InHand(e.proc.proc.pc) != InHand(pc) ==>
                  && pc.InsertRow? && InHand(e.proc.proc.pc) == Some(pc.draft.id)
                  && e.row.PutRow? && e.row.id == pc.draft.id)
  {
    if pc.Provision? {
      BuildKeepsHand(c, s, p, req, pc.draft, pc.phase, choice);
      hide Build;
    } else {
      hide Build, LeaseEnd, Live, IsCandidate, LiveOfProvider, LiveOfAccount, RowFreeFor;
    }
  }

  lemma BuildKeepsHand(c: Config, s: State, p: Pid, req: Request, d: Draft, phase: Phase, choice: Choice)
    requires Build(c, s, p, req, d, phase, choice).Some?
    ensures var change := Build(c, s, p, req, d, phase, choice).value.proc;
            && change.SetProc? && change.p == p && change.proc.Creator? && change.proc.req == req
            && !AtPool(change.proc.pc)
            && (InHand(change.proc.pc).Some? ==> InHand(change.proc.pc) == Some(d.id))
  {
    hide LeaseEnd, RowFreeFor;
  }

  /** What the request `p` is, after a step: as before, new, or one step further. */
  lemma OwnStep(c: Config, s: State, a: Action, p: Pid)
    requires Safe(c, s) && Enabled(c, s, a) && p in Next(c, s, a).procs && Next(c, s, a).procs[p].Creator?
    requires p in s.procs && s.procs[p].Creator? && WantsOwn(c, s.procs[p].req) ==> !AtPool(s.procs[p].pc)
    requires WantsOwn(c, Next(c, s, a).procs[p].req)
    ensures var (t, proc) := (Next(c, s, a), Next(c, s, a).procs[p]);
            && !AtPool(proc.pc)
            && (InHand(proc.pc).Some? ==>
                  p in s.procs && s.procs[p].Creator? && s.procs[p].req == proc.req
                  && (InHand(s.procs[p].pc) == InHand(proc.pc)
                      || (a.Go? && a.p == p && InHand(proc.pc).value !in s.rows && InHand(proc.pc).value in t.rows)))
  {
    hide Advance, Remove, IsPlan, IsShedList, Safe;
    if a.Go? && a.p == p {
      match s.procs[p]
      case Creator(req, pc) =>
        AdvanceMoves(c, s, p, req, pc, a.choice);
        AdvanceWantsOwn(c, s, p, req, pc, a.choice);
        if pc.InsertRow? {
          DraftIsNew(c, s, p);
        }
      case Deleter(stage) => RemoveIsDeleter(c, s, p, stage, a.choice);
    } else if a.Go? {
      match s.procs[a.p]
      case Creator(req, pc) => AdvanceMoves(c, s, a.p, req, pc, a.choice);
      case Deleter(stage) => RemoveIsDeleter(c, s, a.p, stage, a.choice);
    }
  }

  lemma RemoveIsDeleter(c: Config, s: State, p: Pid, stage: Stage, choice: Choice)
    requires Remove(c, s, p, stage, choice).Some?
    ensures var change := Remove(c, s, p, stage, choice).value.proc;
            change.SetProc? && change.p == p && change.proc.Deleter?
  {
  }

  lemma DraftIsNew(c: Config, s: State, p: Pid)
    requires Safe(c, s) && p in s.procs && s.procs[p].Creator? && s.procs[p].pc.InsertRow?
    ensures s.procs[p].pc.draft.id !in s.rows
  {
    assert ProcOk(c, s, s.procs[p]);
    hide LocksExclusive, RowOk;
  }

  /** A request that arrives after state `from` and wants a host of its own never comes to the warm pool, and what it gets
      in hand is a host that it inserted itself since. */
  lemma {:induction false} OwnRequestGetsItsOwn(c: Config, states: seq<State>, actions: seq<Action>, from: nat, j: nat,
                                                p: Pid)
    requires FromStart(c, states, actions) && from <= j < |states| && p !in states[from].procs
    requires p in states[j].procs && states[j].procs[p].Creator? && WantsOwn(c, states[j].procs[p].req)
    ensures var req, pc := states[j].procs[p].req, states[j].procs[p].pc;
            && !AtPool(pc)
            && (InHand(pc).Some? ==> exists i: nat :: from <= i < j && Inserts(states, actions, i, p, req, InHand(pc).value))
  {
    hide Transition, Commit, Safe, Claims, WantsOwn, InHand, AtPool;
    if j == from {
    } else {
      var s, t := states[j - 1], states[j];
      if p in s.procs && s.procs[p].Creator? && WantsOwn(c, s.procs[p].req) {
        OwnRequestGetsItsOwn(c, states, actions, from, j - 1, p);
      }
      ReachableIsSafe(c, states, actions, j - 1);
      assert Enabled(c, s, actions[j - 1]) && t == Next(c, s, actions[j - 1]);
      OwnStep(c, s, actions[j - 1], p);
      var id := InHand(t.procs[p].pc);
      if id.Some? && InHand(s.procs[p].pc) != id {
        assert Inserts(states, actions, j - 1, p, t.procs[p].req, id.value);
      }
    }
  }

  // ---- The recorded host ----

  /** A request that only reads the record of its key: it looks it up, and answers with its host or is refused. */
  predicate Replays(s: State, proc: Proc, k: Key)
    requires k in s.keys
  {
    proc.Creator? && proc.req.key == Some(k) ==>
      || proc.pc == LookupKey(None) || proc.pc == ReadKeyHost(s.keys[k], None)
      || proc.pc == Returned(s.keys[k].host, false) || proc.pc.Failed?
  }

  lemma ReplayStep(c: Config, s: State, a: Action, p: Pid, k: Key)
    requires Enabled(c, s, a) && k in s.keys && k in Next(c, s, a).keys && Next(c, s, a).keys[k] == s.keys[k]
    requires s.keys[k].expiresAt > s.now && s.keys[k].host in s.rows
    requires p in Next(c, s, a).procs && (p in s.procs ==> Replays(s, s.procs[p], k))
    ensures Replays(Next(c, s, a), Next(c, s, a).procs[p], k)
  {
    hide Advance, Remove, IsPlan, IsShedList;
    if a.Go? && a.p == p {
      match s.procs[p]
      case Creator(req, pc) =>
        AdvanceMoves(c, s, p, req, pc, a.choice);
        if req.key == Some(k) {
          AdvanceReplays(c, s, p, req, pc, a.choice, k);
        }
      case Deleter(stage) => RemoveIsDeleter(c, s, p, stage, a.choice);
    } else if a.Go? {
      match s.procs[a.p]
      case Creator(req, pc) => AdvanceMoves(c, s, a.p, req, pc, a.choice);
      case Deleter(stage) => RemoveIsDeleter(c, s, a.p, stage, a.choice);
    }
  }

  lemma AdvanceReplays(c: Config, s: State, p: Pid, req: Request, pc: Pc, choice: Choice, k: Key)
    requires k in s.keys && s.keys[k].expiresAt > s.now && s.keys[k].host in s.rows
    requires req.key == Some(k) && Replays(s, Creator(req, pc), k) && Advance(c, s, p, req, pc, choice).Some?
    ensures Advance(c, s, p, req, pc, choice).value.proc.proc.Creator?
    ensures Replays(s, Advance(c, s, p, req, pc, choice).value.proc.proc, k)
  {
    hide CheckAccount, SelectWarm, UpdateWarm, DraftHost, CheckProvider, AddHost, Build, AddKey, LoadLoser, ReleaseLoser;
  }

  /** A key that has its record costs nothing more: a request with it that arrives while the record lives counts, claims and
      creates nothing, and the one host it can answer with is the recorded one. */
  lemma {:induction false} LateRequestReplays(c: Config, states: seq<State>, actions: seq<Action>, k: Key, i: nat, j: nat,
                                              p: Pid)
    requires FromStart(c, states, actions) && i <= j < |states| && RecordStays(states, k)
    requires k in states[i].keys && states[i].keys[k].expiresAt > states[i].now
    requires p !in states[i].procs && p in states[j].procs
    ensures k in states[j].keys && states[j].keys[k] == states[i].keys[k] && states[j].keys[k].expiresAt > states[j].now
    ensures Replays(states[j], states[j].procs[p], k)
  {
    hide Transition, Commit, Safe, Claims, Converging, Replays, RecordLives;
    LivesOn(c, states, actions, k, i, j);
    if i == j {
    } else {
      var s, t := states[j - 1], states[j];
      LivesOn(c, states, actions, k, i, j - 1);
      ReachableIsSafe(c, states, actions, j - 1);
      HostIsThere(c, s, k);
      assert Enabled(c, s, actions[j - 1]) && t == Next(c, s, actions[j - 1]);
      if p in s.procs {
        LateRequestReplays(c, states, actions, k, i, j - 1, p);
      }
      ReplayStep(c, s, actions[j - 1], p, k);
    }
  }

  lemma LivesOn(c: Config, states: seq<State>, actions: seq<Action>, k: Key, i: nat, j: nat)
    requires FromStart(c, states, actions) && i <= j < |states| && RecordStays(states, k)
    requires k in states[i].keys && states[i].keys[k].expiresAt > states[i].now
    ensures k in states[j].keys && states[j].keys[k] == states[i].keys[k] && states[j].keys[k].expiresAt > states[j].now
  {
    StartIsSound(c, states[0]);
    hide Transition, Commit, Safe, Claims, Converging;
    RecordPersists(c, states, actions, k, i, j);
    if i < j {
      RecordPersists(c, states, actions, k, i, j - 1);
      assert RecordLives(states[j - 1], states[j], k);
    }
  }

  lemma HostIsThere(c: Config, s: State, k: Key)
    requires Safe(c, s) && k in s.keys
    ensures s.keys[k].host in s.rows
  {
    hide RowsOk, ProcsOk, LocksExclusive;
  }
}
