/** One idempotency key converges on one host. */
module HostIdempotency {
  import opened Wrappers
  import opened HostModel
  import opened HostProtocol
  import opened HostSafety
  import opened HostClaims

  /** The own host of a request that lost the race for its key. */
  function Lost(pc: Pc): Option<HostId> {
    if pc.LookupKey? || pc.ReadKeyHost? || pc.DropStaleKey? then pc.lost
    else if pc.ReadLoser? || pc.WriteLoser? then Some(pc.own)
    else None
  }

  /** The own host of a loser is gone, or the key is taken, and by another host. */
  ghost predicate LostOk(s: State, k: Key, own: HostId) {
    && own in s.past
    && (own !in s.rows || k in s.keys)
    && (k in s.keys ==> s.keys[k].host != own)
  }

  /** What a request with key `k` knows about the record of `k`. */
  ghost predicate Informed(s: State, k: Key, proc: Proc) {
    proc.Creator? && proc.req.key == Some(k) ==>
      var pc := proc.pc;
      && !pc.DropStaleKey?
      && (pc.ReadKeyHost? ==> k in s.keys && pc.record == s.keys[k])
      && (pc.Returned? ==> k in s.keys && s.keys[k].host == pc.host)
      && (Lost(pc).Some? ==> LostOk(s, k, Lost(pc).value))
  }

  ghost predicate Converging(s: State, k: Key) {
    forall p :: p in s.procs ==> Informed(s, k, s.procs[p])
  }

  /** The record of `k` outlives the step: it does not expire and its host stays. */
  ghost predicate RecordLives(s: State, t: State, k: Key) {
    k in s.keys ==> s.keys[k].host in t.rows && s.keys[k].expiresAt > t.now
  }

  predicate UsesKeys(pc: Pc) {
    pc.LookupKey? || pc.ReadKeyHost? || pc.DropStaleKey? || pc.RecordKey? || pc.ReadLoser? || pc.WriteLoser?
  }

  /** A step that leaves the keys alone and does not answer. */
  predicate KeepsToItself(req: Request, e: Effect) {
    && e.key.KeepKeys?
    && e.proc.SetProc? && e.proc.proc.Creator? && e.proc.proc.req == req
    && (!UsesKeys(e.proc.proc.pc) || e.proc.proc.pc.RecordKey?) && !e.proc.proc.pc.Returned?
  }

  lemma BuildKeepsKeys(c: Config, s: State, p: Pid, req: Request, d: Draft, phase: Phase, choice: Choice)
    requires req.key.Some? && Build(c, s, p, req, d, phase, choice).Some?
    ensures KeepsToItself(req, Build(c, s, p, req, d, phase, choice).value)
  {
    hide LeaseEnd;
  }

  /** The steps from the first count to the lease stamp leave the keys alone. */
  lemma MiddleKeepsKeys(c: Config, s: State, p: Pid, req: Request, pc: Pc, choice: Choice)
    requires req.key.Some? && !UsesKeys(pc)
    requires Advance(c, s, p, req, pc, choice).Some?
    ensures KeepsToItself(req, Advance(c, s, p, req, pc, choice).value)
  {
    if pc.Provision? {
      BuildKeepsKeys(c, s, p, req, pc.draft, pc.phase, choice);
      hide KeepsToItself, Build;
    } else {
      hide LeaseEnd, Live, IsCandidate, LiveOfProvider, LiveOfAccount, Build, RowFreeFor;
    }
  }

  /** The steps that read or write keys, one by one. */
  lemma LookupInforms(c: Config, s: State, p: Pid, req: Request, pc: Pc, choice: Choice, k: Key)
    requires RowsOk(c, s) && KeysOk(s) && RecordsOk(s) && CreatorOk(c, s, req, pc) && req.key == Some(k)
    requires p in s.procs && s.procs[p] == Creator(req, pc) && Informed(s, k, s.procs[p])
    requires k in s.keys ==> s.keys[k].expiresAt > s.now
    requires (pc.LookupKey? || pc.ReadKeyHost? || pc.DropStaleKey?) && Advance(c, s, p, req, pc, choice).Some?
    ensures var e := Advance(c, s, p, req, pc, choice).value;
            e.key != DropKey(k) && !e.key.PutKey? && e.proc.SetProc? && Informed(Commit(s, e), k, e.proc.proc)
  {
    hide LeaseEnd, UpdateWarm, AddHost, Build, CheckAccount, CheckProvider, DraftHost, SelectWarm, RowOk;
  }

  lemma RaceInforms(c: Config, s: State, p: Pid, req: Request, pc: Pc, choice: Choice, k: Key)
    requires RowsOk(c, s) && KeysOk(s) && RecordsOk(s) && CreatorOk(c, s, req, pc) && req.key == Some(k)
    requires p in s.procs && s.procs[p] == Creator(req, pc) && Informed(s, k, s.procs[p])
    requires (pc.RecordKey? || pc.ReadLoser? || pc.WriteLoser?) && Advance(c, s, p, req, pc, choice).Some?
    ensures var e := Advance(c, s, p, req, pc, choice).value;
            && e.key != DropKey(k)
            && (e.key.PutKey? ==> e.key.key == k && k !in s.keys)
            && e.proc.SetProc? && Informed(Commit(s, e), k, e.proc.proc)
  {
    hide LeaseEnd, UpdateWarm, AddHost, Build, CheckAccount, CheckProvider, DraftHost, SelectWarm, RowOk;
  }

  lemma AdvanceInforms(c: Config, s: State, p: Pid, req: Request, pc: Pc, choice: Choice, k: Key)
    requires Safe(c, s) && RecordsOk(s) && req.key == Some(k)
    requires p in s.procs && s.procs[p] == Creator(req, pc) && Informed(s, k, s.procs[p])
    requires k in s.keys ==> s.keys[k].expiresAt > s.now
    requires Advance(c, s, p, req, pc, choice).Some?
    ensures var e := Advance(c, s, p, req, pc, choice).value;
            && e.key != DropKey(k)
            && (e.key.PutKey? ==> e.key.key == k && k !in s.keys)
            && e.proc.SetProc? && Informed(Commit(s, e), k, e.proc.proc)
  {
    assert ProcOk(c, s, s.procs[p]);
    if UsesKeys(pc) {
      hide Advance, ProcsOk, LocksExclusive, DraftsDistinct, NamesUnique, RowsOk, KeysOk, RecordsOk, Informed;
      if pc.LookupKey? || pc.ReadKeyHost? || pc.DropStaleKey? {
        LookupInforms(c, s, p, req, pc, choice, k);
      } else {
        RaceInforms(c, s, p, req, pc, choice, k);
      }
    } else {
      hide Advance, Safe, RecordsOk, CreatorOk;
      MiddleKeepsKeys(c, s, p, req, pc, choice);
    }
  }

  lemma RemoveKeepsKeys(c: Config, s: State, p: Pid, stage: Stage, choice: Choice)
    requires Remove(c, s, p, stage, choice).Some?
    ensures var e := Remove(c, s, p, stage, choice).value;
            e.key.KeepKeys? && e.proc.SetProc? && e.proc.proc.Deleter?
  {
  }

  /** One step: the record of `k` is not touched, and its process stays informed. */
  ghost predicate InformedStep(s: State, k: Key, e: Effect) {
    && e.key != DropKey(k)
    && (e.key.PutKey? && e.key.key == k ==> k !in s.keys)
    && (e.proc.SetProc? ==> Informed(Commit(s, e), k, e.proc.proc))
  }

  lemma OtherKeyInforms(c: Config, s: State, p: Pid, req: Request, pc: Pc, choice: Choice, k: Key)
    requires req.key != Some(k) && Advance(c, s, p, req, pc, choice).Some?
    ensures var e := Advance(c, s, p, req, pc, choice).value;
            && e.key != DropKey(k) && (e.key.PutKey? ==> e.key.key != k)
            && e.proc.SetProc? && e.proc.proc.Creator? && e.proc.proc.req == req
  {
    hide LeaseEnd, Live, IsCandidate, LiveOfProvider, LiveOfAccount, RowFreeFor, Build;
    if pc.Provision? {
      BuildChangesNoKeys(c, s, p, req, pc.draft, pc.phase, choice);
      AdvanceMoves(c, s, p, req, pc, choice);
    }
  }

  lemma TransitionInforms(c: Config, s: State, a: Action, k: Key)
    requires Safe(c, s) && RecordsOk(s) && Converging(s, k) && Enabled(c, s, a)
    requires k in s.keys ==> s.keys[k].expiresAt > s.now
    ensures InformedStep(s, k, Transition(c, s, a).value)
  {
    if a.Go? {
      match s.procs[a.p]
      case Creator(req, pc) =>
        if req.key == Some(k) {
          AdvanceInforms(c, s, a.p, req, pc, a.choice, k);
        } else {
          OtherKeyInforms(c, s, a.p, req, pc, a.choice, k);
        }
      case Deleter(stage) => RemoveKeepsKeys(c, s, a.p, stage, a.choice);
    }
    hide Advance, Remove, Safe, RecordsOk, IsPlan;
  }

  lemma KeepsConverging(c: Config, s: State, e: Effect, k: Key)
    requires RowsOk(c, s) && KeysOk(s) && EffectSound(c, s, e)
    requires Converging(s, k) && InformedStep(s, k, e)
    requires RecordLives(s, Commit(s, e), k)
    ensures Converging(Commit(s, e), k)
    ensures k in s.keys ==> k in Commit(s, e).keys && Commit(s, e).keys[k] == s.keys[k]
  {
    var t := Commit(s, e);
    assert k in s.keys ==> k in t.keys && t.keys[k] == s.keys[k];
    forall q | q in t.procs
      ensures Informed(t, k, t.procs[q])
    {
      if Some(q) != ActorOf(e.proc) {
        assert Informed(s, k, s.procs[q]);
      }
    }
  }

  lemma ConvergingKept(c: Config, s: State, a: Action, k: Key)
    requires Claims(c, s) && Converging(s, k) && Enabled(c, s, a)
    requires RecordLives(s, Next(c, s, a), k)
    ensures Converging(Next(c, s, a), k)
    ensures k in s.keys ==> k in Next(c, s, a).keys && Next(c, s, a).keys[k] == s.keys[k]
  {
    TransitionSound(c, s, a);
    assert s.now <= Next(c, s, a).now;
    TransitionInforms(c, s, a, k);
    var e := Transition(c, s, a).value;
    assert RecordLives(s, Commit(s, e), k);
    hide Transition, EffectSound, InformedStep, Converging, RowsOk, ProcsOk, LocksExclusive, DraftsDistinct,
         NamesUnique, KeysOk, Custody, RecordLives;
    KeepsConverging(c, s, e, k);
  }

  // ---- Theorems over whole runs ----

  /** The record of `k` neither expires nor loses its host during the run. */
  ghost predicate RecordStays(states: seq<State>, k: Key) {
    forall i :: 0 <= i < |states| - 1 ==> RecordLives(states[i], states[i + 1], k)
  }

  lemma {:induction false} RunConverges(c: Config, states: seq<State>, actions: seq<Action>, k: Key, i: nat)
    requires IsRun(c, states, actions) && Claims(c, states[0]) && i < |states|
    requires Converging(states[0], k) && RecordStays(states, k)
    ensures Claims(c, states[i]) && Converging(states[i], k)
  {
    hide Claims, Converging, Transition, Commit, RecordLives;
    RunClaims(c, states, actions, i);
    if i == 0 {
    } else {
      RunConverges(c, states, actions, k, i - 1);
      assert RecordLives(states[i - 1], states[i], k);
      ConvergingKept(c, states[i - 1], actions[i - 1], k);
    }
  }

  lemma {:induction false} RecordPersists(c: Config, states: seq<State>, actions: seq<Action>, k: Key, i: nat, j: nat)
    requires IsRun(c, states, actions) && Claims(c, states[0]) && i <= j < |states|
    requires Converging(states[0], k) && RecordStays(states, k)
    requires k in states[i].keys
    ensures k in states[j].keys && states[j].keys[k] == states[i].keys[k]
  {
    hide Safe, Custody, PoolOnly, Transition, Commit, Converging, RecordLives;
    if i == j {
    } else {
      RecordPersists(c, states, actions, k, i, j - 1);
      RunConverges(c, states, actions, k, j - 1);
      assert Enabled(c, states[j - 1], actions[j - 1]) && states[j] == Next(c, states[j - 1], actions[j - 1]);
      assert RecordLives(states[j - 1], states[j], k);
      hide IsRun, RecordStays;
      ConvergingKept(c, states[j - 1], actions[j - 1], k);
    }
  }

  /** A state in which no request with key `k` has begun is a fair start. */
  lemma NoRequestConverges(s: State, k: Key)
    requires forall p :: p in s.procs && s.procs[p].Creator? ==> s.procs[p].req.key != Some(k)
    ensures Converging(s, k)
  {
  }

  /** Idempotency converges: whenever and wherever two requests with one key answer, they answer with one host, the
      host of the record. */
  lemma IdempotencyConverges(c: Config, states: seq<State>, actions: seq<Action>, k: Key,
                             i: nat, p: Pid, j: nat, q: Pid)
    requires IsRun(c, states, actions) && Claims(c, states[0]) && i < |states| && j < |states|
    requires Converging(states[0], k) && RecordStays(states, k)
    requires p in states[i].procs && states[i].procs[p].Creator? && states[i].procs[p].req.key == Some(k)
    requires q in states[j].procs && states[j].procs[q].Creator? && states[j].procs[q].req.key == Some(k)
    requires states[i].procs[p].pc.Returned? && states[j].procs[q].pc.Returned?
    ensures states[i].procs[p].pc.host == states[j].procs[q].pc.host
    ensures k in states[i].keys && states[i].keys[k].host == states[i].procs[p].pc.host
  {
    RunConverges(c, states, actions, k, i);
    RunConverges(c, states, actions, k, j);
    assert Informed(states[i], k, states[i].procs[p]) && Informed(states[j], k, states[j].procs[q]);
    hide IsRun, Claims, Converging, RecordStays;
    if i <= j {
      RecordPersists(c, states, actions, k, i, j);
    } else {
      RecordPersists(c, states, actions, k, j, i);
    }
  }

  // ---- Where the condition on the start is exact ----

  /** A request with key `k` that has decided to drop the stale record, and has not done so. */
  predicate Drops(proc: Proc, k: Key) {
    proc.Creator? && proc.req.key == Some(k) && proc.pc.DropStaleKey?
  }

  /** Only the drop of a stale key takes a record away, and an insert never replaces one. */
  lemma AdvanceChangesKeys(c: Config, s: State, p: Pid, req: Request, pc: Pc, choice: Choice)
    requires Advance(c, s, p, req, pc, choice).Some?
    ensures var e := Advance(c, s, p, req, pc, choice).value;
            && (e.key.DropKey? ==> Drops(Creator(req, pc), e.key.stale))
            && (e.key.PutKey? ==> e.key.key !in s.keys)
            && !e.row.DropRow?
  {
    hide LeaseEnd, Live, IsCandidate, LiveOfProvider, LiveOfAccount, RowFreeFor, Build;
    if pc.Provision? {
      BuildChangesNoKeys(c, s, p, req, pc.draft, pc.phase, choice);
    }
  }

  lemma BuildChangesNoKeys(c: Config, s: State, p: Pid, req: Request, d: Draft, phase: Phase, choice: Choice)
    ensures var e := Build(c, s, p, req, d, phase, choice);
            e.Some? ==> e.value.key.KeepKeys? && !e.value.row.DropRow?
  {
    hide LeaseEnd, RowFreeFor;
  }

  lemma StepKeepsRecord(c: Config, s: State, a: Action, k: Key)
    requires Enabled(c, s, a) && k in s.keys && s.keys[k].host in Next(c, s, a).rows
    requires a.Go? ==> a.p in s.procs && !Drops(s.procs[a.p], k)
    ensures k in Next(c, s, a).keys && Next(c, s, a).keys[k] == s.keys[k]
  {
    hide Advance, IsPlan, LeaseEnd, Live;
    if a.Go? {
      match s.procs[a.p]
      case Creator(req, pc) => AdvanceChangesKeys(c, s, a.p, req, pc, a.choice);
      case Deleter(stage) =>
    }
  }

  /** No step takes away a record whose host stays, in any state, if and only if no delete of that key is under way. */
  lemma RecordIsSafeExactly(c: Config, s: State, k: Key)
    requires k in s.keys && s.keys[k].host in s.rows
    ensures (forall a :: Enabled(c, s, a) && s.keys[k].host in Next(c, s, a).rows ==> k in Next(c, s, a).keys)
            <==> forall p :: p in s.procs ==> !Drops(s.procs[p], k)
  {
    hide Transition, Commit;
    if forall p :: p in s.procs ==> !Drops(s.procs[p], k) {
      forall a | Enabled(c, s, a) && s.keys[k].host in Next(c, s, a).rows
        ensures k in Next(c, s, a).keys
      {
        if a.Go? {
          GoesOn(c, s, a);
        }
        StepKeepsRecord(c, s, a, k);
      }
    } else {
      var p :| p in s.procs && Drops(s.procs[p], k);
      DropTakesRecord(c, s, p, k);
    }
  }

  lemma GoesOn(c: Config, s: State, a: Action)
    requires Enabled(c, s, a) && a.Go?
    ensures a.p in s.procs
  {
    hide Advance, Remove;
  }

  lemma DropTakesRecord(c: Config, s: State, p: Pid, k: Key)
    requires p in s.procs && Drops(s.procs[p], k)
    ensures var a := Go(p, Plain);
            Enabled(c, s, a) && Next(c, s, a).rows == s.rows && k !in Next(c, s, a).keys
  {
  }
}
