/**
 Whole requests, built from the statements of HostStore. Before each statement other processes may take any steps, so a
 call here is one process in an arbitrary run. The service keeps the log of that run, and every method hands it on, so the
 theorems about runs are theorems about what these methods leave and answer.
 */
module HostRequests {
  import opened Wrappers
  import opened HostModel
  import opened HostProtocol
  import opened HostSafety
  import opened HostIdempotency
  import opened HostLeases
  import opened HostReachable
  import opened HostOwn
  import opened HostStore

  /** What happens before one statement: the steps of others, and what the world decides for the statement itself. */
  datatype Moment = Moment(others: seq<Action>, choice: Choice)

  datatype Answer = Host(id: HostId) | Refused | Waits

  /** The process whose program counter an action moves. */
  function Actor(a: Action): (p: Option<Pid>) {
    match a
    case Ask(p, _) => Some(p)
    case Erase(p, _, _) => Some(p)
    case Go(p, _) => Some(p)
    case Halt(p) => Some(p)
    case TickCreate(_, p, _) => Some(p)
    case TickShed(_, p, _) => Some(p)
    case _ => None
  }

  /** The log of the service is a run from its start to its tables. */
  ghost predicate Logged(h: HostService)
    reads h
  {
    && FromStart(h.c, h.states, h.actions)
    && h.states[|h.actions|] == h.View()
  }

  lemma OthersSpare(c: Config, s: State, a: Action, p: Pid)
    requires Enabled(c, s, a) && Actor(a) != Some(p) && p in s.procs
    ensures p in Next(c, s, a).procs && Next(c, s, a).procs[p] == s.procs[p]
  {
    hide Advance, Remove, IsPlan, IsShedList;
    if a.Go? {
      match s.procs[a.p]
      case Creator(req, pc) => AdvanceMoves(c, s, a.p, req, pc, a.choice);
      case Deleter(stage) => RemoveMoves(c, s, a.p, stage, a.choice);
    }
  }

  lemma RemoveMoves(c: Config, s: State, p: Pid, stage: Stage, choice: Choice)
    requires Remove(c, s, p, stage, choice).Some?
    ensures var change := Remove(c, s, p, stage, choice).value.proc; change.SetProc? && change.p == p
  {
  }

  /** One more step of the log. */
  ghost method Record(h: HostService, before: State, a: Action)
    requires FromStart(h.c, h.states, h.actions) && h.states[|h.actions|] == before
    requires Enabled(h.c, before, a) && h.View() == Next(h.c, before, a)
    modifies h`states, h`actions
    ensures Logged(h) && h.states == old(h.states) + [h.View()] && h.actions == old(h.actions) + [a]
  {
    hide Transition, Commit;
    h.states, h.actions := h.states + [h.View()], h.actions + [a];
  }

  /** Another process takes a step, whichever it is. */
  method TakeStep(h: HostService, a: Action)
    requires Logged(h) && Enabled(h.c, h.View(), a)
    modifies h
    ensures Logged(h) && h.View() == Next(h.c, old(h.View()), a)
    ensures h.states == old(h.states) + [h.View()] && h.actions == old(h.actions) + [a]
  {
    hide Transition, Commit;
    var t := Next(h.c, h.View(), a);
    ghost var before := h.View();
    h.now, h.rows, h.keys, h.vms, h.used, h.past, h.procs, h.ticks :=
      t.now, t.rows, t.keys, t.vms, t.used, t.past, t.procs, t.ticks;
    Record(h, before, a);
  }

  /** How many statements of `p` are in a log. */
  ghost function Turns(actions: seq<Action>, p: Pid): (n: nat) {
    if actions == [] then 0
    else
      var last := actions[|actions| - 1];
      Turns(actions[..|actions| - 1], p) + (if last.Go? && last.p == p then 1 else 0)
  }

  lemma TurnsAppend(actions: seq<Action>, a: Action, p: Pid)
    ensures Turns(actions + [a], p) == Turns(actions, p) + (if a.Go? && a.p == p then 1 else 0)
  {
    assert (actions + [a])[..|actions|] == actions;
  }

  /** The log goes on, with `n` more statements of `p`, and nothing of it is rewritten. */
  twostate predicate Took(h: HostService, p: Pid, n: int)
    reads h
  {
    && Logged(h) && old(h.states) <= h.states && old(h.actions) <= h.actions
    && Turns(h.actions, p) == Turns(old(h.actions), p) + n
  }

  /** The script is at its end, or the statement that comes next waits for a lock or for the world. */
  ghost predicate Stuck(h: HostService, p: Pid, script: seq<Moment>, m: nat)
    requires p in h.procs
    reads h
  {
    m >= |script| || !Enabled(h.c, h.View(), Go(p, Meant(h.procs[p], script[m].choice)))
  }

  /** The moments `n` to `m` of the script went to statements of `p`; at `m` the request waits, if it does. */
  twostate predicate Used(h: HostService, p: Pid, script: seq<Moment>, n: nat, m: nat)
    reads h
  {
    n <= m <= |script| && Took(h, p, m - n)
  }

  /** The choices that mean something to the statement that comes next; the others are plain. */
  function Meant(proc: Proc, choice: Choice): (meant: Choice) {
    if proc.Deleter? then
      if choice.Fails? && (proc.stage.ReleaseDevice? || proc.stage.DeleteVm?) then Fails else Plain
    else
      var pc := proc.pc;
      if pc.PickWarm? || pc.MintHost? then choice
      else if pc.Provision? && pc.phase.CallProvider? then choice
      else if pc.Provision? && (pc.phase.CommitVm? || pc.phase.WaitDevice? || pc.phase.CommitActive?) && choice.Fails?
      then Fails
      else Plain
  }

  /** Others run, and then the turn of `p` comes, unless the statement still waits for a lock. */
  method Turn(h: HostService, p: Pid, script: seq<Moment>, n: nat) returns (ready: bool, choice: Choice)
    requires Logged(h) && p in h.procs && n <= |script|
    modifies h
    ensures Took(h, p, 0) && p in h.procs && h.procs[p] == old(h.procs)[p]
    ensures ready ==> n < |script| && Enabled(h.c, h.View(), Go(p, choice)) && choice == Meant(h.procs[p], script[n].choice)
    ensures !ready ==> Stuck(h, p, script, n)
  {
    hide Transition, Commit, FromStart;
    if n == |script| {
      return false, Plain;
    }
    var i := 0;
    while i < |script[n].others|
      invariant Took(h, p, 0) && p in h.procs && h.procs[p] == old(h.procs)[p]
    {
      var a := script[n].others[i];
      if Actor(a) != Some(p) && Enabled(h.c, h.View(), a) {
        NextKeepsProcs(h, a, p);
        TurnsAppend(h.actions, a, p);
        TakeStep(h, a);
      }
      i := i + 1;
    }
    choice := Meant(h.procs[p], script[n].choice);
    ready := Enabled(h.c, h.View(), Go(p, choice));
  }

  lemma NextKeepsProcs(h: HostService, a: Action, p: Pid)
    requires Enabled(h.c, h.View(), a) && Actor(a) != Some(p) && p in h.procs
    ensures p in Next(h.c, h.View(), a).procs && Next(h.c, h.View(), a).procs[p] == h.procs[p]
  {
    OthersSpare(h.c, h.View(), a, p);
    hide Transition, Commit;
  }

  // ---- One statement ----

  /** Which statement may follow which. */
  predicate Succ(req: Request, was: Pc, next: Pc) {
    match was
    case LookupKey(lost) =>
      (next.ReadKeyHost? && next.lost == lost) || (if lost.None? then next.CountAccount? else next.Failed?)
    case ReadKeyHost(_, lost) => next.Returned? || next.Failed? || next == DropStaleKey(lost)
    case DropStaleKey(lost) => if lost.None? then next.CountAccount? else next.Failed?
    case CountAccount => next.Failed? || next.PickWarm? || next.MintHost?
    case PickWarm(_) => next.MintHost? || next.ClaimWarm?
    case ClaimWarm(id, _, _, _) => next == Settle(req, id) || next == MintHost(false)
    case MintHost(_) => next.Failed? || next.CountProvider?
    case CountProvider(d, _) => next.Failed? || (next.InsertRow? && next.draft == d)
    case InsertRow(d, _, _) => next.Failed? || next == Provision(d, CommitNetwork)
    case Provision(d, phase) =>
      next.Failed? || (next.Provision? && next.draft == d && SuccPhase(phase, next.phase))
      || (phase.StampLease? && next == Settle(req, d.id))
    case RecordKey(own) => next == Returned(own, true) || next == ReadLoser(own)
    case ReadLoser(own) => next == LookupKey(Some(own)) || (next.WriteLoser? && next.own == own)
    case WriteLoser(own, _, _) => next == LookupKey(Some(own)) || next.Failed?
    case _ => false
  }

  predicate SuccPhase(was: Phase, next: Phase) {
    match was
    case CommitNetwork => next.CommitVm?
    case CommitVm => next.CallProvider? || next.MarkFailed?
    case CallProvider => next.CommitBootstrapping? || next.MarkFailed?
    case CommitBootstrapping => next.WaitDevice? || next.CommitActive?
    case WaitDevice => next.CommitActive? || next.MarkFailed?
    case CommitActive => next.StampLease? || next.MarkFailed?
    case _ => false
  }

  twostate predicate Moved(h: HostService, p: Pid)
    requires p in old(h.procs) && old(h.procs)[p].Creator?
    reads h
  {
    && Took(h, p, 1) && h.At(p) && h.procs[p].req == old(h.procs)[p].req
    && Succ(h.procs[p].req, old(h.procs)[p].pc, h.procs[p].pc)
  }

  method KeyStatement(h: HostService, p: Pid)
    requires Logged(h) && h.At(p) && h.procs[p].req.key.Some? && Enabled(h.c, h.View(), Go(p, Plain))
    requires h.procs[p].pc.LookupKey? || h.procs[p].pc.ReadKeyHost? || h.procs[p].pc.DropStaleKey?
    modifies h
    ensures Moved(h, p)
  {
    hide LeaseEnd, Requested, WithinLifetime, Unexpired, Live;
    hide Transition, Commit, FromStart;
    ghost var before := h.View();
    match h.procs[p].pc {
      case LookupKey(_) => var _ := h.FindRecord(p);
      case ReadKeyHost(_, _) => var _ := h.FindRecordedHost(p);
      case DropStaleKey(_) => h.CollectStaleKey(p);
    }
    TurnsAppend(h.actions, Go(p, Plain), p);
    Record(h, before, Go(p, Plain));
  }

  method RecordStatement(h: HostService, p: Pid)
    requires Logged(h) && h.At(p) && h.procs[p].req.key.Some? && Enabled(h.c, h.View(), Go(p, Plain))
    requires h.procs[p].pc.RecordKey?
    modifies h
    ensures Moved(h, p)
  {
    hide Transition, Commit, FromStart;
    ghost var before := h.View();
    var _ := h.RecordIdempotencyKey(p);
    TurnsAppend(h.actions, Go(p, Plain), p);
    Record(h, before, Go(p, Plain));
  }

  method LoserStatement(h: HostService, p: Pid)
    requires Logged(h) && h.At(p) && Enabled(h.c, h.View(), Go(p, Plain))
    requires h.procs[p].pc.ReadLoser? || h.procs[p].pc.WriteLoser?
    modifies h
    ensures Moved(h, p)
  {
    hide LeaseEnd, Requested, WithinLifetime, Unexpired, Live;
    hide Transition, Commit, FromStart;
    ghost var before := h.View();
    if h.procs[p].pc.ReadLoser? {
      h.LoadIdempotencyLoser(p);
    } else {
      h.ReleaseIdempotencyLoser(p);
    }
    TurnsAppend(h.actions, Go(p, Plain), p);
    Record(h, before, Go(p, Plain));
  }

  lemma CandidateIsOldest(c: Config, s: State, p: Pid, choice: Choice)
    requires p in s.procs && s.procs[p].Creator? && s.procs[p].pc.PickWarm? && Enabled(c, s, Go(p, choice))
    ensures choice.Candidate? && IsOldestCandidate(c, s, s.procs[p].req, choice.picked)
  {
    hide Remove, Build, IsOldestCandidate;
  }

  lemma DraftIsFresh(c: Config, s: State, p: Pid, choice: Choice)
    requires p in s.procs && s.procs[p].Creator? && s.procs[p].pc.MintHost? && Enabled(c, s, Go(p, choice))
    ensures choice.Fails? || (choice.Fresh? && choice.id !in s.used)
  {
    hide Remove, Build;
  }

  lemma CallIsMeant(c: Config, s: State, p: Pid, choice: Choice)
    requires p in s.procs && s.procs[p].Creator? && s.procs[p].pc.Provision? && s.procs[p].pc.phase.CallProvider?
    requires Enabled(c, s, Go(p, choice))
    ensures choice.Plain? || choice.Fails? || choice.FailsWithVm?
  {
    hide Remove;
  }

  method ClaimStatement(h: HostService, p: Pid, choice: Choice)
    requires Logged(h) && h.At(p) && Enabled(h.c, h.View(), Go(p, choice)) && choice == Meant(h.procs[p], choice)
    requires h.procs[p].pc.CountAccount? || h.procs[p].pc.PickWarm? || h.procs[p].pc.ClaimWarm?
    modifies h
    ensures Moved(h, p)
  {
    hide LeaseEnd, Requested, WithinLifetime, Unexpired, Live;
    hide Transition, Commit, FromStart, IsOldestCandidate, AccountLimited, LiveOfAccount;
    ghost var before := h.View();
    match h.procs[p].pc {
      case CountAccount => var _ := h.CheckAccountLimit(p);
      case PickWarm(_) =>
        CandidateIsOldest(h.c, h.View(), p, choice);
        h.SelectCandidate(p, choice.picked);
      case ClaimWarm(_, _, _, _) => var _ := h.ClaimCandidate(p);
    }
    TurnsAppend(h.actions, Go(p, choice), p);
    Record(h, before, Go(p, choice));
  }

  method MintStatement(h: HostService, p: Pid, choice: Choice)
    requires Logged(h) && h.At(p) && Enabled(h.c, h.View(), Go(p, choice)) && h.procs[p].pc.MintHost?
    modifies h
    ensures Moved(h, p)
  {
    hide LeaseEnd, Requested, InitialEnd;
    hide Transition, Commit, FromStart;
    ghost var before := h.View();
    DraftIsFresh(h.c, h.View(), p, choice);
    if choice.Fresh? {
      h.MintDraft(p, choice.id, choice.name, true);
    } else {
      h.MintDraft(p, 0, "", false);
    }
    TurnsAppend(h.actions, Go(p, choice), p);
    Record(h, before, Go(p, choice));
  }

  method InsertStatement(h: HostService, p: Pid)
    requires Logged(h) && h.At(p) && Enabled(h.c, h.View(), Go(p, Plain)) && h.procs[p].req.tick.None?
    requires h.procs[p].pc.CountProvider? || h.procs[p].pc.InsertRow?
    modifies h
    ensures Moved(h, p)
  {
    hide LeaseEnd, Requested, WithinLifetime, Unexpired, Live;
    hide Transition, Commit, FromStart, LiveOfProvider;
    ghost var before := h.View();
    if h.procs[p].pc.CountProvider? {
      var _ := h.CheckProviderLimit(p);
    } else {
      var _ := h.InsertHost(p);
    }
    TurnsAppend(h.actions, Go(p, Plain), p);
    Record(h, before, Go(p, Plain));
  }

  /** One statement of provision(), or the stamp after it. */
  method ProvisionStatement(h: HostService, p: Pid, choice: Choice)
    requires Logged(h) && h.At(p) && Enabled(h.c, h.View(), Go(p, choice)) && choice == Meant(h.procs[p], choice)
    requires h.procs[p].pc.Provision?
    modifies h
    ensures Moved(h, p)
  {
    hide Transition, Commit, FromStart;
    var phase := h.procs[p].pc.phase;
    if (phase.WaitDevice? && choice.Plain?) || phase.MarkFailed? || phase.StampLease? {
      EndStatement(h, p);
    } else {
      BuildStatement(h, p, choice);
    }
  }

  method BuildStatement(h: HostService, p: Pid, choice: Choice)
    requires Logged(h) && h.At(p) && Enabled(h.c, h.View(), Go(p, choice)) && choice == Meant(h.procs[p], choice)
    requires h.procs[p].pc.Provision?
    requires var phase := h.procs[p].pc.phase;
             !phase.MarkFailed? && !phase.StampLease? && (phase.WaitDevice? ==> choice.Fails?)
    modifies h
    ensures Moved(h, p)
  {
    hide LeaseEnd, Requested, WithinLifetime, Unexpired, Live;
    hide Transition, Commit, FromStart;
    ghost var before := h.View();
    var phase := h.procs[p].pc.phase;
    var planned := h.StatusOf(phase, h.procs[p].req.provider);
    var taken := choice;
    if phase.CallProvider? {
      CallIsMeant(h.c, h.View(), p, choice);
      h.CreateVm(p, choice);
    } else if choice.Fails? || (phase.CommitVm? && planned.None?) {
      taken := Fails;
      h.NoteFailure(p);
    } else {
      var _ := h.CommitStatus(p, planned.value.0, planned.value.1);
    }
    TurnsAppend(h.actions, Go(p, taken), p);
    Record(h, before, Go(p, taken));
  }

  method EndStatement(h: HostService, p: Pid)
    requires Logged(h) && h.At(p) && Enabled(h.c, h.View(), Go(p, Plain)) && h.procs[p].pc.Provision?
    requires var phase := h.procs[p].pc.phase; phase.WaitDevice? || phase.MarkFailed? || phase.StampLease?
    modifies h
    ensures Moved(h, p)
  {
    hide LeaseEnd, Requested, WithinLifetime, Unexpired, Live;
    hide Transition, Commit, FromStart;
    ghost var before := h.View();
    match h.procs[p].pc.phase {
      case WaitDevice => var _ := h.StoreDevice(p);
      case MarkFailed(_) => h.FailHost(p);
      case StampLease => var _ := h.ReplaceSafetyTerm(p);
    }
    TurnsAppend(h.actions, Go(p, Plain), p);
    Record(h, before, Go(p, Plain));
  }

  /** The next statement of a request, when its turn comes. */
  method StepOn(h: HostService, p: Pid, script: seq<Moment>, n: nat) returns (waits: bool, m: nat)
    requires n <= |script| && Logged(h) && h.At(p) && !h.procs[p].pc.Returned? && !h.procs[p].pc.Failed? && KeyedOk(h.procs[p])
    modifies h
    ensures h.At(p) && h.procs[p].req == old(h.procs[p].req)
    ensures Used(h, p, script, n, m)
    ensures !waits ==> Succ(h.procs[p].req, old(h.procs[p].pc), h.procs[p].pc) && m == n + 1
    ensures waits ==> h.procs[p] == old(h.procs[p]) && m == n && Stuck(h, p, script, m)
  {
    hide Transition, Commit, FromStart, Succ;
    var ready, choice := Turn(h, p, script, n);
    if !ready {
      return true, n;
    }
    var pc := h.procs[p].pc;
    if pc.LookupKey? || pc.ReadKeyHost? || pc.DropStaleKey? {
      KeyStatement(h, p);
    } else if pc.RecordKey? {
      RecordStatement(h, p);
    } else if pc.ReadLoser? || pc.WriteLoser? {
      LoserStatement(h, p);
    } else if pc.CountAccount? || pc.PickWarm? || pc.ClaimWarm? {
      ClaimStatement(h, p, choice);
    } else if pc.Provision? {
      ProvisionStatement(h, p, choice);
    } else if pc.MintHost? {
      MintStatement(h, p, choice);
    } else {
      InsertStatement(h, p);
    }
    return false, n + 1;
  }

  /** A caller's request, which looks up and records a key only if it has one. */
  predicate KeyedOk(proc: Proc)
    requires proc.Creator?
  {
    var pc := proc.pc;
    && proc.req.tick.None?
    && (pc.LookupKey? || pc.ReadKeyHost? || pc.DropStaleKey? || pc.RecordKey? || pc.ReadLoser? || pc.WriteLoser? ==>
          proc.req.key.Some?)
  }

  // ---- get_or_create_host ----

  /** _lookup_idempotency_key: the host of an unexpired record, a refusal, or nothing, once a stale record is gone. */
  method Lookup(h: HostService, p: Pid, script: seq<Moment>, n: nat) returns (waits: bool, m: nat)
    requires n <= |script| && Logged(h) && h.At(p) && h.procs[p].pc.LookupKey? && KeyedOk(h.procs[p])
    modifies h
    ensures h.At(p) && h.procs[p].req == old(h.procs[p].req)
    ensures Used(h, p, script, n, m) && (waits ==> Stuck(h, p, script, m))
    ensures !waits ==>
              || h.procs[p].pc.Returned? || h.procs[p].pc.Failed?
              || (h.procs[p].pc.CountAccount? && old(h.procs[p].pc.lost).None?)
  {
    hide Transition, Commit, FromStart, Logged, Stuck, Turns, Actor;
    waits, m := StepOn(h, p, script, n);
    if waits || !h.procs[p].pc.ReadKeyHost? {
      return;
    }
    waits, m := StepOn(h, p, script, m);
    if waits || !h.procs[p].pc.DropStaleKey? {
      return;
    }
    waits, m := StepOn(h, p, script, m);
  }

  /** The count of the account, and _try_claim_pool_host if the request may take a warm host. */
  method CountAndClaim(h: HostService, p: Pid, script: seq<Moment>, n: nat) returns (waits: bool, m: nat)
    requires n <= |script| && Logged(h) && h.At(p) && h.procs[p].pc.CountAccount? && KeyedOk(h.procs[p])
    modifies h
    ensures h.At(p) && h.procs[p].req == old(h.procs[p].req)
    ensures Used(h, p, script, n, m) && (waits ==> Stuck(h, p, script, m))
    ensures !waits ==>
              var (req, pc) := (h.procs[p].req, h.procs[p].pc);
              pc.Failed? || pc.MintHost? || (exists id :: pc == Settle(req, id))
  {
    hide Transition, Commit, FromStart, Logged, Stuck, Turns, Actor;
    waits, m := StepOn(h, p, script, n);
    if waits || !h.procs[p].pc.PickWarm? {
      return;
    }
    waits, m := StepOn(h, p, script, m);
    if waits || !h.procs[p].pc.ClaimWarm? {
      return;
    }
    waits, m := StepOn(h, p, script, m);
  }

  /** create_host: the draft, the count of the provider, the insert, provision() and the stamp. */
  method CreateHost(h: HostService, p: Pid, script: seq<Moment>, n: nat) returns (waits: bool, m: nat)
    requires n <= |script| && Logged(h) && h.At(p) && h.procs[p].pc.MintHost? && KeyedOk(h.procs[p])
    modifies h
    ensures h.At(p) && h.procs[p].req == old(h.procs[p].req)
    ensures Used(h, p, script, n, m) && (waits ==> Stuck(h, p, script, m))
    ensures !waits ==>
              var (req, pc) := (h.procs[p].req, h.procs[p].pc);
              pc.Failed? || (exists id :: pc == Settle(req, id))
  {
    hide Transition, Commit, FromStart, Logged, Stuck, Turns, Actor;
    waits, m := StepOn(h, p, script, n);
    if waits || h.procs[p].pc.Failed? {
      return;
    }
    waits, m := StepOn(h, p, script, m);
    if waits || h.procs[p].pc.Failed? {
      return;
    }
    waits, m := StepOn(h, p, script, m);
    if !waits && h.procs[p].pc.Provision? {
      waits, m := ProvisionHost(h, p, script, m);
    }
  }

  /** provision() and the stamp, to the host in hand or to the failure. */
  method ProvisionHost(h: HostService, p: Pid, script: seq<Moment>, n: nat) returns (waits: bool, m: nat)
    requires n <= |script| && Logged(h) && h.At(p) && h.procs[p].pc.Provision? && KeyedOk(h.procs[p])
    modifies h
    ensures h.At(p) && h.procs[p].req == old(h.procs[p].req)
    ensures Used(h, p, script, n, m) && (waits ==> Stuck(h, p, script, m))
    ensures !waits ==> h.procs[p].pc.Failed? || h.procs[p].pc == Settle(h.procs[p].req, old(h.procs[p].pc.draft.id))
  {
    hide Transition, Commit, FromStart, Logged, Stuck, Turns, Actor;
    waits, m := false, n;
    while !waits && h.procs[p].pc.Provision?
      invariant h.At(p) && h.procs[p].req == old(h.procs[p].req)
      invariant Used(h, p, script, n, m) && (waits ==> Stuck(h, p, script, m))
      invariant !waits ==>
                  var pc := h.procs[p].pc;
                  || pc.Failed? || pc == Settle(h.procs[p].req, old(h.procs[p].pc.draft.id))
                  || (pc.Provision? && pc.draft == old(h.procs[p].pc.draft))
      decreases !waits, |script| - m
    {
      waits, m := StepOn(h, p, script, m);
    }
  }

  /** The record of the key, and if another request won, the release of the own host and the lookup of the winner. */
  method RecordOrYield(h: HostService, p: Pid, script: seq<Moment>, n: nat) returns (waits: bool, m: nat)
    requires n <= |script| && Logged(h) && h.At(p) && h.procs[p].pc.RecordKey? && KeyedOk(h.procs[p])
    modifies h
    ensures h.At(p) && h.procs[p].req == old(h.procs[p].req)
    ensures Used(h, p, script, n, m) && (waits ==> Stuck(h, p, script, m))
    ensures !waits ==> h.procs[p].pc.Returned? || h.procs[p].pc.Failed?
  {
    hide Transition, Commit, FromStart, Logged, Stuck, Turns, Actor;
    waits, m := StepOn(h, p, script, n);
    if waits || h.procs[p].pc.Returned? {
      return;
    }
    waits, m := StepOn(h, p, script, m);
    if !waits && h.procs[p].pc.WriteLoser? {
      waits, m := StepOn(h, p, script, m);
    }
    if !waits && h.procs[p].pc.LookupKey? {
      waits, m := Lookup(h, p, script, m);
    }
  }

  /** A warm host or a new one, and the race for the key. */
  method ObtainHost(h: HostService, p: Pid, script: seq<Moment>, n: nat) returns (waits: bool, m: nat)
    requires n <= |script| && Logged(h) && h.At(p) && h.procs[p].pc.CountAccount? && KeyedOk(h.procs[p])
    modifies h
    ensures h.At(p) && h.procs[p].req == old(h.procs[p].req)
    ensures Used(h, p, script, n, m) && (waits ==> Stuck(h, p, script, m))
    ensures !waits ==> h.procs[p].pc.Returned? || h.procs[p].pc.Failed?
  {
    hide Transition, Commit, FromStart, Logged, Stuck, Turns, Actor;
    waits, m := CountAndClaim(h, p, script, n);
    if !waits && h.procs[p].pc.MintHost? {
      waits, m := CreateHost(h, p, script, m);
    }
    if !waits && h.procs[p].pc.RecordKey? {
      waits, m := RecordOrYield(h, p, script, m);
    }
  }

  /** A request arrives. */
  method BeginRequest(h: HostService, p: Pid, req: Request)
    requires Logged(h) && p !in h.procs && req.tick.None?
    modifies h
    ensures Took(h, p, 0) && h.At(p)
    ensures h.procs[p] == Creator(req, if req.key.Some? then LookupKey(None) else CountAccount)
  {
    hide FromStart, Advance, Remove;
    ghost var before := h.View();
    h.procs := h.procs[p := Creator(req, if req.key.Some? then LookupKey(None) else CountAccount)];
    TurnsAppend(h.actions, Ask(p, req), p);
    Record(h, before, Ask(p, req));
  }

  /** get_or_create_host, among any others: the request is one process of a logged run. It answers with a host, is refused,
      or still waits when the script ends. */
  method GetOrCreateHost(h: HostService, p: Pid, req: Request, script: seq<Moment>) 
    returns (answer: Answer, m: nat)
    requires Logged(h) && p !in h.procs && req.tick.None?
    modifies h
    ensures h.At(p) && h.procs[p].req == req
    ensures Used(h, p, script, 0, m) && (answer.Waits? ==> Stuck(h, p, script, m))
    ensures answer.Host? <==> h.procs[p].pc.Returned?
    ensures answer.Host? ==> h.procs[p].pc.host == answer.id
    ensures answer.Refused? <==> h.procs[p].pc.Failed?
    ensures answer.Waits? <==> !h.procs[p].pc.Returned? && !h.procs[p].pc.Failed?
    ensures req.customized || req.provider !in h.c.targets ==> OwnsWhatItHas(h, p, |old(h.actions)|)
  {
    hide Transition, Commit, FromStart, Logged, Stuck, Turns, Actor, OwnsWhatItHas;
    ghost var from := |h.actions|;
    LogEnds(h);
    assert p !in h.states[from].procs;
    BeginRequest(h, p, req);
    var waits;
    waits, m := false, 0;
    if req.key.Some? {
      waits, m := Lookup(h, p, script, m);
    }
    if !waits && h.procs[p].pc.CountAccount? {
      waits, m := ObtainHost(h, p, script, m);
    }
    var pc := h.procs[p].pc;
    answer := if pc.Returned? then Host(pc.host) else if pc.Failed? then Refused else Waits;
    if req.customized || req.provider !in h.c.targets {
      OwnInLog(h, p, from);
    }
  }

  /** Since state `from` of the log the request never came to the warm pool, and the host in its hands is one that it
      inserted. */
  ghost predicate OwnsWhatItHas(h: HostService, p: Pid, from: nat)
    requires h.At(p)
    reads h
  {
    var req, held := h.procs[p].req, InHand(h.procs[p].pc);
    && (forall j :: from <= j < |h.states| && p in h.states[j].procs && h.states[j].procs[p].Creator?
                    && h.states[j].procs[p].req == req ==>
          !h.states[j].procs[p].pc.PickWarm? && !h.states[j].procs[p].pc.ClaimWarm?)
    && (held.Some? ==> exists i: nat :: from <= i < |h.actions| && Inserts(h.states, h.actions, i, p, req, held.value))
  }

  lemma OwnInLog(h: HostService, p: Pid, from: nat)
    requires Logged(h) && h.At(p) && from < |h.states| && p !in h.states[from].procs
    requires h.procs[p].req.customized || h.procs[p].req.provider !in h.c.targets
    ensures OwnsWhatItHas(h, p, from)
  {
    hide FromStart, Inserts, InHand;
    LogEnds(h);
    OwnRequestGetsItsOwn(h.c, h.states, h.actions, from, |h.actions|, p);
    forall j | from <= j < |h.states| && p in h.states[j].procs && h.states[j].procs[p].Creator?
               && h.states[j].procs[p].req == h.procs[p].req
      ensures !h.states[j].procs[p].pc.PickWarm? && !h.states[j].procs[p].pc.ClaimWarm?
    {
      OwnRequestGetsItsOwn(h.c, h.states, h.actions, from, j, p);
    }
  }

  /** Any two requests with one key that the service has answered got one host, if the record of the key lived on. */
  lemma AnswersAgree(h: HostService, k: Key, p: Pid, q: Pid)
    requires Logged(h) && RecordStays(h.states, k) && h.At(p) && h.At(q)
    requires h.procs[p].req.key == Some(k) && h.procs[q].req.key == Some(k)
    requires h.procs[p].pc.Returned? && h.procs[q].pc.Returned?
    ensures h.procs[p].pc.host == h.procs[q].pc.host
  {
    hide Transition, Commit, RecordStays;
    OneHostPerKey(h.c, h.states, h.actions, k, |h.actions|, p, |h.actions|, q);
  }

  // ---- delete_host ----

  predicate SuccStage(was: Stage, next: Stage) {
    match was
    case LockHost(id, mode) =>
      next == Done(false)
      || (HasTarget(next) && next.target.id == id && next.target.mode == mode && (!next.ReleaseDevice? ==> next.locked))
    case ReleaseDevice(t) => next == DeleteVm(t, false) || next == Done(false)
    case DeleteVm(t, locked) => next == DeleteRow(t, locked) || next == Done(false)
    case DeleteRow(_, _) => next == Done(true)
    case Done(_) => false
  }

  /** At step `i` the delete `p` locked the row, and the guard of its mode held. */
  ghost predicate LockedWithinGuard(states: seq<State>, actions: seq<Action>, i: nat, p: Pid, id: HostId, mode: Mode) {
    && i < |actions| < |states| && actions[i] == Go(p, Plain)
    && p in states[i].procs && states[i].procs[p] == Deleter(LockHost(id, mode))
    && id in states[i].rows && GuardHolds(states[i].rows[id], mode, states[i].now)
  }

  /** The lock of a delete. */
  method LockStatement(h: HostService, p: Pid)
    requires Logged(h) && h.Deletes(p) && h.procs[p].stage.LockHost? && Enabled(h.c, h.View(), Go(p, Plain))
    modifies h
    ensures Took(h, p, 1) && h.Deletes(p) && SuccStage(old(h.procs[p].stage), h.procs[p].stage)
    ensures |old(h.actions)| < |h.actions|
    ensures HasTarget(h.procs[p].stage) ==>
              LockedWithinGuard(h.states, h.actions, |old(h.actions)|, p, old(h.procs[p].stage.id), old(h.procs[p].stage.mode))
  {
    hide Transition, Commit, FromStart;
    ghost var before := h.View();
    var proceed := h.LockForDelete(p);
    TurnsAppend(h.actions, Go(p, Plain), p);
    Record(h, before, Go(p, Plain));
    LogLength(h);
  }

  lemma LogLength(h: HostService)
    requires Logged(h)
    ensures |h.states| == |h.actions| + 1
  {
  }

  lemma LogEnds(h: HostService)
    requires Logged(h)
    ensures |h.states| == |h.actions| + 1 && h.states[|h.actions|] == h.View()
  {
  }

  /** A longer log says so too. */
  lemma GuardStays(states: seq<State>, actions: seq<Action>, more: seq<State>, steps: seq<Action>, i: nat, p: Pid,
                   id: HostId, mode: Mode)
    requires LockedWithinGuard(states, actions, i, p, id, mode)
    requires states <= more && actions <= steps && |steps| < |more|
    ensures LockedWithinGuard(more, steps, i, p, id, mode)
  {
    assert more[i] == states[i] && steps[i] == actions[i];
  }

  /** The calls of a delete, and its last statement. */
  method EraseStatement(h: HostService, p: Pid, choice: Choice)
    requires Logged(h) && h.Deletes(p) && HasTarget(h.procs[p].stage)
    requires Enabled(h.c, h.View(), Go(p, choice)) && choice == Meant(h.procs[p], choice)
    modifies h
    ensures Took(h, p, 1) && h.Deletes(p) && SuccStage(old(h.procs[p].stage), h.procs[p].stage)
    ensures h.procs[p].stage == Done(true) ==> old(h.procs[p].stage.target.id) !in h.rows
  {
    hide Transition, Commit, FromStart;
    ghost var before := h.View();
    if h.procs[p].stage.ReleaseDevice? {
      h.DropDeviceOf(p, choice.Plain?);
    } else if h.procs[p].stage.DeleteVm? {
      h.DropVm(p, choice.Plain?);
    } else {
      h.DeleteHostRow(p);
    }
    TurnsAppend(h.actions, Go(p, choice), p);
    Record(h, before, Go(p, choice));
  }

  datatype Removal = Removed | Kept | Blocked

  /** delete_host, among any others. It is over, or waits for a lock or the world; a host that is removed was locked within
      its guard, and is gone. */
  method DeleteAmongOthers(h: HostService, p: Pid, id: HostId, mode: Mode, script: seq<Moment>, n: nat)
    returns (outcome: Removal, m: nat, ghost at: nat)
    requires n <= |script| && Logged(h) && h.Deletes(p) && h.procs[p].stage == LockHost(id, mode)
    modifies h
    ensures h.Deletes(p) && Used(h, p, script, n, m)
    ensures outcome.Removed? <==> h.procs[p].stage == Done(true)
    ensures outcome.Kept? <==> h.procs[p].stage == Done(false)
    ensures outcome.Removed? ==>
              id !in h.rows && |old(h.actions)| <= at < |h.actions| && LockedWithinGuard(h.states, h.actions, at, p, id, mode)
    ensures outcome.Blocked? ==> Stuck(h, p, script, m)
  {
    hide Transition, Commit, FromStart, Stuck, Turns, Actor, GuardHolds, Enabled, LockedWithinGuard, Logged;
    outcome, m, at := Blocked, n, 0;
    var ready, choice := Turn(h, p, script, m);
    if !ready {
      return;
    }
    at := |h.actions|;
    LockStatement(h, p);
    m := m + 1;
    while !h.procs[p].stage.Done?
      invariant h.Deletes(p) && Used(h, p, script, n, m) && |old(h.actions)| <= at < |h.actions|
      invariant h.procs[p].stage.Done? || (HasTarget(h.procs[p].stage) && h.procs[p].stage.target.id == id)
      invariant h.procs[p].stage != Done(false) ==> LockedWithinGuard(h.states, h.actions, at, p, id, mode)
      invariant h.procs[p].stage == Done(true) ==> id !in h.rows
      decreases |script| - m
    {
      ghost var states, actions := h.states, h.actions;
      ready, choice := Turn(h, p, script, m);
      if !ready {
        return;
      }
      EraseStatement(h, p, choice);
      m := m + 1;
      LogLength(h);
      GuardStays(states, actions, h.states, h.actions, at, p, id, mode);
    }
    outcome := if h.procs[p].stage == Done(true) then Removed else Kept;
  }

  // ---- reap_expired_hosts ----

  /** A delete arrives; the pool sheds from the list of a tick, so this one is of the API or the janitor. */
  method BeginDelete(h: HostService, id: HostId, mode: Mode) returns (p: Pid)
    requires Logged(h) && mode != Shed
    modifies h
    ensures Logged(h) && old(h.states) <= h.states && h.actions == old(h.actions) + [Erase(p, id, mode)]
    ensures h.Deletes(p) && h.procs[p].stage == LockHost(id, mode)
    ensures h.rows == old(h.rows) && h.past == old(h.past)
  {
    hide FromStart, Advance, Remove, IsRun;
    ghost var bound := FreshId(h.procs.Keys);
    assert bound !in h.procs;
    p :| p !in h.procs;
    ghost var before := h.View();
    h.procs := h.procs[p := Deleter(LockHost(id, mode))];
    Record(h, before, Erase(p, id, mode));
  }

  /** Once gone, a host stays gone, whatever others do. */
  lemma GoneInLog(h: HostService, i: nat, id: HostId)
    requires Logged(h) && i < |h.states| && id in h.states[i].past && id !in h.states[i].rows
    ensures id !in h.rows
  {
    StartIsSound(h.c, h.states[0]);
    hide Safe, Transition, Commit;
    StaysGone(h.c, h.states, h.actions, i, |h.actions|, id);
  }

  lemma RowIsPast(h: HostService, i: nat, id: HostId)
    requires Logged(h) && i < |h.states| && id in h.states[i].rows
    ensures id in h.states[i].past
  {
    StartIsSound(h.c, h.states[0]);
    hide Safe, Transition, Commit;
    RunSafe(h.c, h.states, h.actions, i);
    PastOfSafe(h.c, h.states[i], id);
  }

  lemma PastOfSafe(c: Config, s: State, id: HostId)
    requires Safe(c, s) && id in s.rows
    ensures id in s.past
  {
    hide ProcsOk, LocksExclusive, RowOk;
  }

  lemma PastInLog(h: HostService, i: nat, id: HostId)
    requires Logged(h) && i < |h.states| && id in h.states[i].past
    ensures id in h.past
  {
    StartIsSound(h.c, h.states[0]);
    hide Safe, Transition, Commit;
    PastGoesOn(h.c, h.states, h.actions, i, |h.actions|, id);
  }

  lemma {:induction false} PastGoesOn(c: Config, states: seq<State>, actions: seq<Action>, i: nat, j: nat, id: HostId)
    requires IsRun(c, states, actions) && i <= j < |states| && id in states[i].past
    ensures id in states[j].past
  {
    hide Transition, Commit;
    if i == j {
    } else {
      PastGoesOn(c, states, actions, i, j - 1, id);
      PastStays(c, states[j - 1], actions[j - 1], id);
    }
  }

  /** What came of one selected host. */
  datatype Attempt = Attempt(id: HostId, outcome: Removal)

  /** Where the log has an attempt: its process, the step at which it began, the state at its end, and the moments of the
      script that it used. */
  datatype Span = Span(p: Pid, begun: nat, ended: nat, n: nat, m: nat)

  /** The log has a delete of the janitor for the host, and the outcome is what became of it: the row was locked when its
      lease had ended and is gone; or the delete was over without that; or it still waits at its moment of the script. */
  ghost predicate Attempted(c: Config, states: seq<State>, actions: seq<Action>, script: seq<Moment>, a: Attempt, w: Span) {
    && w.begun < w.ended <= |actions| < |states| && w.n <= w.m <= |script|
    && actions[w.begun] == Erase(w.p, a.id, Reap)
    && Turns(actions[..w.ended], w.p) == Turns(actions[..w.begun], w.p) + w.m - w.n
    && w.p in states[w.ended].procs && states[w.ended].procs[w.p].Deleter?
    && var stage := states[w.ended].procs[w.p].stage;
    match a.outcome
    case Removed =>
      && stage == Done(true) && a.id in states[w.ended].past && a.id !in states[w.ended].rows
      && exists i: nat :: w.begun < i < w.ended && LockedWithinGuard(states, actions, i, w.p, a.id, Reap)
    case Kept => stage == Done(false)
    case Blocked => !stage.Done? && StuckAt(c, states[w.ended], w.p, script, w.m)
  }

  ghost predicate StuckAt(c: Config, s: State, p: Pid, script: seq<Moment>, m: nat)
    requires p in s.procs
  {
    m >= |script| || !Enabled(c, s, Go(p, Meant(s.procs[p], script[m].choice)))
  }

  lemma AttemptStays(c: Config, states: seq<State>, actions: seq<Action>, more: seq<State>, steps: seq<Action>,
                     script: seq<Moment>, a: Attempt, w: Span)
    requires Attempted(c, states, actions, script, a, w)
    requires states <= more && actions <= steps && |steps| < |more|
    ensures Attempted(c, more, steps, script, a, w)
  {
    hide LockedWithinGuard, StuckAt, Turns;
    assert steps[..w.ended] == actions[..w.ended] && steps[..w.begun] == actions[..w.begun];
    assert steps[w.begun] == actions[w.begun] && more[w.ended] == states[w.ended];
    if a.outcome.Removed? {
      var i: nat :| w.begun < i < w.ended && LockedWithinGuard(states, actions, i, w.p, a.id, Reap);
      GuardStays(states, actions, more, steps, i, w.p, a.id, Reap);
    }
  }

  /** One delete of the janitor. */
  method ReapOne(h: HostService, id: HostId, script: seq<Moment>, n: nat)
    returns (outcome: Removal, m: nat, ghost w: Span)
    requires n <= |script| && Logged(h)
    modifies h
    ensures Logged(h) && old(h.states) <= h.states && old(h.actions) <= h.actions
    ensures Attempted(h.c, h.states, h.actions, script, Attempt(id, outcome), w)
    ensures w.n == n && w.m == m && m <= |script| && w.begun == |old(h.actions)| && w.ended == |h.actions|
  {
    hide Transition, Commit, FromStart, Actor, GuardHolds, Turns, Stuck, LockedWithinGuard;
    ghost var before := h.actions;
    var p := BeginDelete(h, id, Reap);
    TurnsAppend(before, Erase(p, id, Reap), p);
    ghost var at;
    outcome, m, at := DeleteAmongOthers(h, p, id, Reap, script, n);
    LogLength(h);
    w := Span(p, |before|, |h.actions|, n, m);
    assert h.actions[..|h.actions|] == h.actions && h.actions[..|before|] == before;
    assert h.actions[|before|] == Erase(p, id, Reap);
    assert h.states[|h.actions|] == h.View();
    if outcome.Removed? {
      GuardHasRow(h.states, h.actions, at, p, id);
      RowIsPast(h, at, id);
      PastInLog(h, at, id);
    } else if outcome.Blocked? {
      StuckInLog(h, p, script, m);
    }
  }

  lemma GuardHasRow(states: seq<State>, actions: seq<Action>, i: nat, p: Pid, id: HostId)
    requires LockedWithinGuard(states, actions, i, p, id, Reap)
    ensures i < |states| && id in states[i].rows
  {
  }

  lemma StuckInLog(h: HostService, p: Pid, script: seq<Moment>, m: nat)
    requires p in h.procs && Stuck(h, p, script, m)
    ensures StuckAt(h.c, h.View(), p, script, m)
  {
    hide Transition;
  }

  lemma RemovedIsGone(h: HostService, script: seq<Moment>, a: Attempt, w: Span)
    requires Logged(h) && Attempted(h.c, h.states, h.actions, script, a, w) && a.outcome.Removed?
    ensures a.id !in h.rows
  {
    hide Logged, LockedWithinGuard, Turns;
    GoneInLog(h, w.ended, a.id);
  }

  /** The attempts follow each other in the log and in the script. */
  predicate Chained(spans: seq<Span>, begun: nat) {
    forall k :: 0 <= k < |spans| ==> spans[k].begun >= LogEnd(spans[..k], begun) && spans[k].n == ScriptEnd(spans[..k])
  }

  function LogEnd(spans: seq<Span>, begun: nat): (end: nat) {
    if spans == [] then begun else spans[|spans| - 1].ended
  }

  function ScriptEnd(spans: seq<Span>): (end: nat) {
    if spans == [] then 0 else spans[|spans| - 1].m
  }

  lemma NoneChained(begun: nat)
    ensures Chained([], begun)
  {
  }

  lemma ChainedOneMore(spans: seq<Span>, begun: nat, w: Span)
    requires Chained(spans, begun)
    requires w.begun >= LogEnd(spans, begun) && w.n == ScriptEnd(spans)
    ensures Chained(spans + [w], begun)
  {
    forall k | 0 <= k < |spans|
      ensures (spans + [w])[..k] == spans[..k]
    {
    }
    assert (spans + [w])[..|spans|] == spans;
  }

  predicate Tries(attempts: seq<Attempt>, id: HostId) {
    exists k :: 0 <= k < |attempts| && attempts[k].id == id
  }

  /** What the attempts of a sweep have in common, up to the moment `m` of the script. */
  ghost predicate Swept(h: HostService, script: seq<Moment>, attempts: seq<Attempt>, spans: seq<Span>, begun: nat, m: nat)
    reads h
  {
    && |spans| == |attempts| && Chained(spans, begun)
    && LogEnd(spans, begun) <= |h.actions| && m == ScriptEnd(spans) && m <= |script|
    && (forall k :: 0 <= k < |attempts| ==> Attempted(h.c, h.states, h.actions, script, attempts[k], spans[k]))
    && (forall i, j :: 0 <= i < j < |attempts| ==> attempts[i].id != attempts[j].id)
  }

  lemma NothingSwept(h: HostService, script: seq<Moment>, begun: nat)
    requires begun <= |h.actions|
    ensures Swept(h, script, [], [], begun, 0) && forall id :: !Tries([], id)
  {
  }

  lemma SweptOneMore(h: HostService, states: seq<State>, actions: seq<Action>, script: seq<Moment>, attempts: seq<Attempt>,
                     spans: seq<Span>, begun: nat, n: nat, a: Attempt, w: Span)
    requires Logged(h) && states <= h.states && actions <= h.actions && !Tries(attempts, a.id)
    requires |spans| == |attempts| && Chained(spans, begun) && LogEnd(spans, begun) <= |actions| && n == ScriptEnd(spans)
    requires forall k :: 0 <= k < |attempts| ==> Attempted(h.c, states, actions, script, attempts[k], spans[k])
    requires forall i, j :: 0 <= i < j < |attempts| ==> attempts[i].id != attempts[j].id
    requires Attempted(h.c, h.states, h.actions, script, a, w) && w.begun == |actions| && w.n == n && w.m <= |script|
    requires w.ended == |h.actions|
    ensures Swept(h, script, attempts + [a], spans + [w], begun, w.m)
  {
    hide Attempted, Chained, Logged;
    LogLength(h);
    ChainedOneMore(spans, begun, w);
    forall k | 0 <= k < |attempts|
      ensures Attempted(h.c, h.states, h.actions, script, attempts[k], spans[k])
    {
      AttemptStays(h.c, states, actions, h.states, h.actions, script, attempts[k], spans[k]);
    }
  }

  /** The removed hosts of a sweep are gone at its end. */
  lemma SweptIsGone(h: HostService, script: seq<Moment>, attempts: seq<Attempt>, spans: seq<Span>, begun: nat, m: nat)
    requires Logged(h) && Swept(h, script, attempts, spans, begun, m)
    ensures forall k :: 0 <= k < |attempts| && attempts[k].outcome.Removed? ==> attempts[k].id !in h.rows
  {
    hide Attempted, Chained, Logged;
    forall k | 0 <= k < |attempts| && attempts[k].outcome.Removed?
      ensures attempts[k].id !in h.rows
    {
      RemovedIsGone(h, script, attempts[k], spans[k]);
    }
  }

  function RemovedOf(attempts: seq<Attempt>): (ids: seq<HostId>) {
    if attempts == [] then []
    else
      var last := attempts[|attempts| - 1];
      RemovedOf(attempts[..|attempts| - 1]) + (if last.outcome.Removed? then [last.id] else [])
  }

  lemma RemovedOfOneMore(attempts: seq<Attempt>, a: Attempt)
    ensures RemovedOf(attempts + [a]) == RemovedOf(attempts) + (if a.outcome.Removed? then [a.id] else [])
  {
    assert (attempts + [a])[..|attempts|] == attempts;
  }

  lemma {:induction false} RemovedAreListed(attempts: seq<Attempt>)
    requires forall i, j :: 0 <= i < j < |attempts| ==> attempts[i].id != attempts[j].id
    ensures forall id :: id in RemovedOf(attempts) <==> Attempt(id, Removed) in attempts
    ensures forall i, j :: 0 <= i < j < |RemovedOf(attempts)| ==> RemovedOf(attempts)[i] != RemovedOf(attempts)[j]
  {
    if attempts == [] {
      assert RemovedOf(attempts) == [];
    } else {
      var rest, last := attempts[..|attempts| - 1], attempts[|attempts| - 1];
      assert attempts == rest + [last];
      RemovedAreListed(rest);
      forall id | id in RemovedOf(rest)
        ensures id != last.id
      {
        var k :| 0 <= k < |rest| && rest[k] == Attempt(id, Removed);
        assert attempts[k] == rest[k];
      }
    }
  }

  /** reap_expired_hosts, among any others. Exactly the hosts that had expired at the selection are tried, each once, one
      after the other, and the reaped ones are those whose delete removed them; they had no live lease when they were locked
      and are gone at the end, whatever renewals and deletes ran in between. A host is passed over only if its delete was
      over without removing it, or still waits at its moment of the script; the sweep then goes on, as it does when the
      statement ends in an error of the database. */
  method ReapAmongOthers(h: HostService, script: seq<Moment>)
    returns (reaped: seq<HostId>, attempts: seq<Attempt>, ghost spans: seq<Span>)
    requires Logged(h)
    modifies h
    ensures Logged(h) && old(h.states) <= h.states && old(h.actions) <= h.actions
    ensures |spans| == |attempts| && Chained(spans, |old(h.actions)|)
    ensures forall k :: 0 <= k < |attempts| ==> Attempted(h.c, h.states, h.actions, script, attempts[k], spans[k])
    ensures forall id :: Tries(attempts, id) <==>
              id in old(h.rows) && old(h.rows)[id].expiresAt.Some? && old(h.rows)[id].expiresAt.value < old(h.now)
    ensures forall i, j :: 0 <= i < j < |attempts| ==> attempts[i].id != attempts[j].id
    ensures forall id :: id in reaped <==> Attempt(id, Removed) in attempts
    ensures forall i, j :: 0 <= i < j < |reaped| ==> reaped[i] != reaped[j]
    ensures forall id :: id in reaped ==> id !in h.rows
  {
    hide Transition, Commit, FromStart, Stuck, Turns, Actor, Logged, Took, Attempted, Chained, Tries;
    var expired := set id | id in h.rows && IsExpired(h.rows[id], h.now);
    var left := expired;
    var m := 0;
    reaped, attempts, spans := [], [], [];
    NothingSwept(h, script, |h.actions|);
    while left != {}
      invariant Logged(h) && old(h.states) <= h.states && old(h.actions) <= h.actions
      invariant Swept(h, script, attempts, spans, |old(h.actions)|, m)
      invariant left <= expired && forall id :: Tries(attempts, id) <==> id in expired && id !in left
      invariant reaped == RemovedOf(attempts)
    {
      var id :| id in left;
      ghost var states, actions := h.states, h.actions;
      var outcome;
      ghost var w;
      ghost var n := m;
      outcome, m, w := ReapOne(h, id, script, m);
      SweptOneMore(h, states, actions, script, attempts, spans, |old(h.actions)|, n, Attempt(id, outcome), w);
      TriesOneMore(attempts, Attempt(id, outcome));
      RemovedOfOneMore(attempts, Attempt(id, outcome));
      left := left - {id};
      attempts, spans := attempts + [Attempt(id, outcome)], spans + [w];
      if outcome.Removed? {
        reaped := reaped + [id];
      }
    }
    SweptIsGone(h, script, attempts, spans, |old(h.actions)|, m);
    RemovedAreListed(attempts);
  }

  lemma TriesOneMore(attempts: seq<Attempt>, a: Attempt)
    ensures forall id :: Tries(attempts + [a], id) <==> Tries(attempts, id) || id == a.id
  {
    forall id | Tries(attempts, id)
      ensures Tries(attempts + [a], id)
    {
      var k :| 0 <= k < |attempts| && attempts[k].id == id;
      assert (attempts + [a])[k].id == id;
    }
    assert (attempts + [a])[|attempts|] == a;
  }
}
