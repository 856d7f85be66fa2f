/** Overlapping ticks reach the bound of PoolBound: how far a pool can be over-provisioned, exactly. */
module PoolOverlap {
  import opened Wrappers
  import opened HostModel
  import opened HostProtocol
  import opened HostForced
  import opened PoolBound
  import opened HostReachable

  // ---- Runs in which no race is lost ----

  /** The plan of a tick spends the whole cap, or makes up every deficit. */
  predicate IsWhole(c: Config, s: State, a: Action) {
    a.TickStart? ==>
      || |a.batch| == c.createsPerTick
      || forall provider :: provider in c.targets ==> a.batch[provider] == Deficit(c, s, provider, a.at)
  }

  /** A run leads from `s` to `t`; its plans are whole, and no step of it hands a claimed member back. */
  ghost predicate Leads(c: Config, s: State, t: State, provider: Provider) {
    exists states, actions :: Links(c, states, actions, s, t, provider)
  }

  ghost predicate Links(c: Config, states: seq<State>, actions: seq<Action>, s: State, t: State, provider: Provider) {
    && IsRun(c, states, actions) && states[0] == s && states[|actions|] == t
    && forall k :: 0 <= k < |actions| ==> IsWhole(c, states[k], actions[k]) && !IsReturn(states[k], states[k + 1], provider)
  }

  lemma LeadsNowhere(c: Config, s: State, provider: Provider)
    ensures Leads(c, s, s, provider)
  {
    assert Links(c, [s], [], s, s, provider);
  }

  lemma LeadsOneStep(c: Config, s: State, a: Action, t: State, provider: Provider)
    requires StepsTo(c, s, a, t) && IsWhole(c, s, a)
    requires forall id :: id in s.rows && id in t.rows ==> t.rows[id].claimedAt == s.rows[id].claimedAt
    ensures Leads(c, s, t, provider)
  {
    hide Transition, Commit, IsWhole;
    assert !IsReturn(s, t, provider);
    assert Links(c, [s, t], [a], s, t, provider);
  }

  lemma LeadsOn(c: Config, s: State, t: State, u: State, provider: Provider)
    requires Leads(c, s, t, provider) && Leads(c, t, u, provider)
    ensures Leads(c, s, u, provider)
  {
    hide Transition, Commit, IsReturn, IsWhole;
    var states, actions :| Links(c, states, actions, s, t, provider);
    var more, rest :| Links(c, more, rest, t, u, provider);
    JoinRuns(c, states, actions, more, rest);
    var all, acts := states + more[1..], actions + rest;
    forall k | 0 <= k < |acts|
      ensures IsWhole(c, all[k], acts[k]) && !IsReturn(all[k], all[k + 1], provider)
    {
      if k >= |actions| {
        assert all[k] == more[k - |actions|] && all[k + 1] == more[k - |actions| + 1] && acts[k] == rest[k - |actions|];
      }
    }
    hide IsRun;
    assert all[|acts|] == u;
    assert Links(c, all, acts, s, u, provider);
  }

  // ---- One host of a tick ----

  /** The only provider with a pool can make hosts for it, and what is in use is known to be. */
  ghost predicate CanCreate(c: Config, s: State, provider: Provider) {
    && c.targets.Keys == {provider} && provider !in c.hostLimits && (provider in c.tailnet ==> c.tailscale)
    && (forall id :: id in s.rows ==> id in s.used)
    && (forall p :: p in s.procs && RowLock(s.procs[p]).Some? ==> RowLock(s.procs[p]).value in s.used)
  }

  function WithRow(s: State, p: Pid, req: Request, id: HostId, row: Row, pc: Pc): State {
    s.(rows := s.rows[id := row], past := s.past + {id}, procs := s.procs[p := Creator(req, pc)])
  }

  /** A commit of provision() of a host that only its creator touches. */
  lemma CommitLeads(c: Config, s: State, p: Pid, req: Request, d: Draft, phase: Phase, row: Row, next: Pc, after: Row)
    requires forall q :: q in s.procs && q != p ==> RowLock(s.procs[q]) != Some(d.id)
    requires var t := WithRow(s, p, req, d.id, row, Provision(d, phase));
             Build(c, t, p, req, d, phase, Plain) == CreatorCommit(t, p, req, d.id, after, next)
    requires after.claimedAt == row.claimedAt
    ensures Leads(c, WithRow(s, p, req, d.id, row, Provision(d, phase)), WithRow(s, p, req, d.id, after, next), req.provider)
  {
    hide Build, Leads, Remove;
    var t, u := WithRow(s, p, req, d.id, row, Provision(d, phase)), WithRow(s, p, req, d.id, after, next);
    assert t.rows[d.id := after] == u.rows && t.past + {d.id} == u.past;
    assert t.procs[p := Creator(req, next)] == u.procs;
    assert StepsTo(c, t, Go(p, Plain), u);
    LeadsOneStep(c, t, Go(p, Plain), u, req.provider);
  }

  lemma CallLeads(c: Config, s: State, p: Pid, req: Request, d: Draft, row: Row)
    ensures Leads(c, WithRow(s, p, req, d.id, row, Provision(d, CallProvider)),
                  WithRow(s.(vms := s.vms + {Vm(req.provider, d.name)}), p, req, d.id, row, Provision(d, CommitBootstrapping)),
                  req.provider)
  {
    hide Leads, Remove;
    var t := WithRow(s, p, req, d.id, row, Provision(d, CallProvider));
    var u := WithRow(s.(vms := s.vms + {Vm(req.provider, d.name)}), p, req, d.id, row, Provision(d, CommitBootstrapping));
    assert t.procs[p := Creator(req, Provision(d, CommitBootstrapping))] == u.procs;
    assert StepsTo(c, t, Go(p, Plain), u);
    LeadsOneStep(c, t, Go(p, Plain), u, req.provider);
  }

  /** The commits of provision() that set a status. */
  function StatusSet(c: Config, req: Request, phase: Phase): (planned: Option<(Status, Phase)>) {
    match phase
    case CommitNetwork => Some((CreatingNetwork, CommitVm))
    case CommitVm => Some((CreatingVm, CallProvider))
    case CommitBootstrapping => Some((Bootstrapping, if req.provider in c.tailnet then WaitDevice else CommitActive))
    case CommitActive => Some((Active, StampLease))
    case _ => None
  }

  lemma StatusLeads(c: Config, s: State, p: Pid, req: Request, d: Draft, phase: Phase, row: Row)
    requires forall q :: q in s.procs && q != p ==> RowLock(s.procs[q]) != Some(d.id)
    requires StatusSet(c, req, phase).Some? && (req.provider in c.tailnet ==> c.tailscale)
    ensures var (status, next) := StatusSet(c, req, phase).value;
            Leads(c, WithRow(s, p, req, d.id, row, Provision(d, phase)),
                  WithRow(s, p, req, d.id, row.(status := status), Provision(d, next)), req.provider)
  {
    hide Leads, CreatorCommit;
    var (status, next) := StatusSet(c, req, phase).value;
    CommitLeads(c, s, p, req, d, phase, row, Provision(d, next), row.(status := status));
  }

  lemma DeviceLeads(c: Config, s: State, p: Pid, req: Request, d: Draft, row: Row)
    requires forall q :: q in s.procs && q != p ==> RowLock(s.procs[q]) != Some(d.id)
    ensures Leads(c, WithRow(s, p, req, d.id, row, Provision(d, WaitDevice)),
                  WithRow(s, p, req, d.id, row.(hasDevice := true), Provision(d, CommitActive)), req.provider)
  {
    hide Leads, CreatorCommit;
    CommitLeads(c, s, p, req, d, WaitDevice, row, Provision(d, CommitActive), row.(hasDevice := true));
  }

  lemma StampLeads(c: Config, s: State, p: Pid, req: Request, d: Draft, row: Row)
    requires forall q :: q in s.procs && q != p ==> RowLock(s.procs[q]) != Some(d.id)
    requires row.expiresAt == Some(d.initial) && req.key.None?
    ensures Leads(c, WithRow(s, p, req, d.id, row, Provision(d, StampLease)),
                  WithRow(s, p, req, d.id, StampedRow(c, req, row, d, s.now), Returned(d.id, true)), req.provider)
  {
    hide Leads, CreatorCommit, LeaseEnd, Requested;
    CommitLeads(c, s, p, req, d, StampLease, row, Returned(d.id, true), StampedRow(c, req, row, d, s.now));
  }

  /** The row of a host of the pool, at the end of its creation. */
  function WarmRow(c: Config, req: Request, d: Draft, now: Time): Row {
    StampedRow(c, req, NewRow(req, d).(status := Active, hasDevice := req.provider in c.tailnet), d, now)
  }

  /** From the insert to the answer. */
  lemma BuildLeads(c: Config, s: State, p: Pid, req: Request, d: Draft)
    requires forall q :: q in s.procs && q != p ==> RowLock(s.procs[q]) != Some(d.id)
    requires req.key.None? && (req.provider in c.tailnet ==> c.tailscale)
    ensures Leads(c, WithRow(s, p, req, d.id, NewRow(req, d), Provision(d, CommitNetwork)),
                  WithRow(s.(vms := s.vms + {Vm(req.provider, d.name)}), p, req, d.id, WarmRow(c, req, d, s.now),
                          Returned(d.id, true)),
                  req.provider)
  {
    hide Leads, StampedRow;
    var row := NewRow(req, d);
    var u := s.(vms := s.vms + {Vm(req.provider, d.name)});
    var t0 := WithRow(s, p, req, d.id, row, Provision(d, CommitNetwork));
    var t1 := WithRow(s, p, req, d.id, row.(status := CreatingNetwork), Provision(d, CommitVm));
    var t2 := WithRow(s, p, req, d.id, row.(status := CreatingVm), Provision(d, CallProvider));
    var t3 := WithRow(u, p, req, d.id, row.(status := CreatingVm), Provision(d, CommitBootstrapping));
    StatusLeads(c, s, p, req, d, CommitNetwork, row);
    StatusLeads(c, s, p, req, d, CommitVm, row.(status := CreatingNetwork));
    CallLeads(c, s, p, req, d, row.(status := CreatingVm));
    BootLeads(c, u, p, req, d);
    LeadsOn(c, t0, t1, t2, req.provider);
    LeadsOn(c, t0, t2, t3, req.provider);
    LeadsOn(c, t0, t3, WithRow(u, p, req, d.id, WarmRow(c, req, d, s.now), Returned(d.id, true)), req.provider);
  }

  /** From the machine to the answer. */
  lemma BootLeads(c: Config, s: State, p: Pid, req: Request, d: Draft)
    requires forall q :: q in s.procs && q != p ==> RowLock(s.procs[q]) != Some(d.id)
    requires req.key.None? && (req.provider in c.tailnet ==> c.tailscale)
    ensures Leads(c, WithRow(s, p, req, d.id, NewRow(req, d).(status := CreatingVm), Provision(d, CommitBootstrapping)),
                  WithRow(s, p, req, d.id, WarmRow(c, req, d, s.now), Returned(d.id, true)), req.provider)
  {
    hide Leads, StampedRow;
    var row, tailnet := NewRow(req, d), req.provider in c.tailnet;
    var t0 := WithRow(s, p, req, d.id, row.(status := CreatingVm), Provision(d, CommitBootstrapping));
    var t1 := WithRow(s, p, req, d.id, row.(status := Bootstrapping), Provision(d, if tailnet then WaitDevice else CommitActive));
    var t2 := WithRow(s, p, req, d.id, row.(status := Bootstrapping, hasDevice := tailnet), Provision(d, CommitActive));
    var t3 := WithRow(s, p, req, d.id, row.(status := Active, hasDevice := tailnet), Provision(d, StampLease));
    StatusLeads(c, s, p, req, d, CommitBootstrapping, row.(status := CreatingVm));
    if tailnet {
      DeviceLeads(c, s, p, req, d, row.(status := Bootstrapping));
    } else {
      LeadsNowhere(c, t1, req.provider);
    }
    StatusLeads(c, s, p, req, d, CommitActive, row.(status := Bootstrapping, hasDevice := tailnet));
    StampLeads(c, s, p, req, d, row.(status := Active, hasDevice := tailnet));
    LeadsOn(c, t0, t1, t2, req.provider);
    LeadsOn(c, t0, t2, t3, req.provider);
    LeadsOn(c, t0, t3, WithRow(s, p, req, d.id, WarmRow(c, req, d, s.now), Returned(d.id, true)), req.provider);
  }

  function PoolRequest(c: Config, s: State, slot: nat, provider: Provider): Request {
    Request(None, None, Until(s.now + c.poolMaxAge), provider, false, Some(slot))
  }

  function Spent(s: State, slot: nat, provider: Provider): (ticks: seq<Tick>)
    requires slot < |s.ticks| && s.ticks[slot].Running?
  {
    s.ticks[slot := s.ticks[slot].(batch := s.ticks[slot].batch - multiset{provider})]
  }

  lemma FreshName(rows: map<HostId, Row>) returns (name: Name)
    ensures forall id :: id in rows ==> rows[id].name != name
  {
    var lengths := set id | id in rows :: |rows[id].name|;
    var bound := FreshId(lengths);
    name := seq(bound, _ => 'x');
    forall id | id in rows
      ensures rows[id].name != name
    {
      assert |rows[id].name| in lengths && |name| == bound;
    }
  }

  /** A tick takes the next host of its batch up, and drafts it. */
  lemma DraftLeads(c: Config, s: State, slot: nat, provider: Provider, p: Pid, x: HostId, name: Name)
    requires slot < |s.ticks| && s.ticks[slot].Running? && provider in s.ticks[slot].batch
    requires p !in s.procs && x !in s.used && provider !in c.hostLimits
    ensures var req := PoolRequest(c, s, slot, provider);
            Leads(c, s, WithPc(s, p, req, InsertRow(Drafted(c, s, req, x, name), false, false)).(used := s.used + {x}), provider)
  {
    hide Leads, Transition, Drafted;
    var req := PoolRequest(c, s, slot, provider);
    var d := Drafted(c, s, req, x, name);
    var s1 := WithPc(s, p, req, MintHost(false));
    TakeUp(c, s, slot, provider, p);
    LeadsOneStep(c, s, TickCreate(slot, p, provider), s1, provider);
    var s2 := WithPc(s1, p, req, CountProvider(d, false)).(used := s.used + {x});
    MintStep(c, s1, p, req, false, x, name);
    SameDraft(c, s, s1, req, x, name);
    LeadsOneStep(c, s1, Go(p, Fresh(x, name)), s2, provider);
    var s3 := WithPc(s2, p, req, InsertRow(d, false, false));
    UnlimitedStep(c, s2, p, req, d, false);
    LeadsOneStep(c, s2, Go(p, Plain), s3, provider);
    LeadsOn(c, s, s1, s2, provider);
    LeadsOn(c, s, s2, s3, provider);
    assert s3.procs == s.procs[p := Creator(req, InsertRow(d, false, false))];
  }

  lemma TakeUp(c: Config, s: State, slot: nat, provider: Provider, p: Pid)
    requires slot < |s.ticks| && s.ticks[slot].Running? && provider in s.ticks[slot].batch && p !in s.procs
    ensures StepsTo(c, s, TickCreate(slot, p, provider), WithPc(s, p, PoolRequest(c, s, slot, provider), MintHost(false)))
  {
    hide Advance, Remove;
  }

  lemma SameDraft(c: Config, s: State, t: State, req: Request, x: HostId, name: Name)
    requires t.now == s.now
    ensures Drafted(c, t, req, x, name) == Drafted(c, s, req, x, name)
  {
  }

  /** The insert spends one place of the batch. */
  lemma InsertLeads(c: Config, s: State, slot: nat, p: Pid, req: Request, d: Draft)
    requires slot < |s.ticks| && s.ticks[slot].Running? && req.provider in s.ticks[slot].batch && req.tick == Some(slot)
    requires p in s.procs && s.procs[p] == Creator(req, InsertRow(d, false, false))
    requires d.id !in s.rows && forall id :: id in s.rows ==> s.rows[id].name != d.name
    ensures Leads(c, s, WithRow(s.(ticks := Spent(s, slot, req.provider)), p, req, d.id, NewRow(req, d), Provision(d, CommitNetwork)),
                  req.provider)
  {
    hide Leads, Build, Remove, NewRow;
    var t := WithRow(s.(ticks := Spent(s, slot, req.provider)), p, req, d.id, NewRow(req, d), Provision(d, CommitNetwork));
    assert StepsTo(c, s, Go(p, Plain), t);
    LeadsOneStep(c, s, Go(p, Plain), t, req.provider);
  }

  /** A tick makes the next host of its batch, to the end, before it takes up another. */
  lemma CreateOne(c: Config, s: State, slot: nat, provider: Provider) returns (t: State)
    requires CanCreate(c, s, provider) && slot < |s.ticks| && s.ticks[slot].Running? && provider in s.ticks[slot].batch
    ensures Leads(c, s, t, provider) && CanCreate(c, t, provider)
    ensures t.now == s.now && t.ticks == Spent(s, slot, provider)
    ensures |WarmNow(t, provider)| == |WarmNow(s, provider)| + 1
  {
    hide Leads, Transition, Drafted, NewRow, StampedRow, WarmNow, CanCreate;
    var p := FreshId(s.procs.Keys);
    var x := FreshId(s.used);
    var name := FreshName(s.rows);
    var req := PoolRequest(c, s, slot, provider);
    var d := Drafted(c, s, req, x, name);
    DraftedOf(c, s, req, x, name);
    NothingUsed(c, s, provider, p, x);
    DraftLeads(c, s, slot, provider, p, x, name);
    var s1 := WithPc(s, p, req, InsertRow(d, false, false)).(used := s.used + {x});
    InsertLeads(c, s1, slot, p, req, d);
    var u := s1.(ticks := Spent(s, slot, provider));
    BuildLeads(c, u, p, req, d);
    var s2 := WithRow(u, p, req, x, NewRow(req, d), Provision(d, CommitNetwork));
    t := WithRow(u.(vms := u.vms + {Vm(provider, name)}), p, req, x, WarmRow(c, req, d, s.now), Returned(x, true));
    LeadsOn(c, s, s1, s2, provider);
    LeadsOn(c, s, s2, t, provider);
    KeepsCreating(c, s, t, provider, p, req, x, Returned(x, true));
    OneMoreWarm(c, s, t, req, d);
  }

  lemma NothingUsed(c: Config, s: State, provider: Provider, p: Pid, x: HostId)
    requires CanCreate(c, s, provider) && x !in s.used
    ensures x !in s.rows && provider !in c.hostLimits && (provider in c.tailnet ==> c.tailscale)
    ensures forall q :: q in s.procs && q != p ==> RowLock(s.procs[q]) != Some(x)
  {
  }

  lemma KeepsCreating(c: Config, s: State, t: State, provider: Provider, p: Pid, req: Request, x: HostId, pc: Pc)
    requires CanCreate(c, s, provider) && t.rows.Keys <= s.rows.Keys + {x} && t.used == s.used + {x}
    requires t.procs == s.procs[p := Creator(req, pc)]
    ensures CanCreate(c, t, provider)
  {
  }

  lemma OneMoreWarm(c: Config, s: State, t: State, req: Request, d: Draft)
    requires t.now == s.now && d.id !in s.rows && t.rows == s.rows[d.id := WarmRow(c, req, d, s.now)]
    requires req.tick.Some? && req.lease == Until(s.now + c.poolMaxAge) && d.createdAt == s.now
    ensures |WarmNow(t, req.provider)| == |WarmNow(s, req.provider)| + 1
  {
    assert WarmNow(t, req.provider) == WarmNow(s, req.provider) + {d.id};
  }

  // ---- Ticks that overlap ----

  /** How many hosts a tick plans that counts now. */
  function PlanSize(c: Config, s: State, provider: Provider): nat {
    var missing := Deficit(c, s, provider, s.now);
    if c.createsPerTick <= missing then c.createsPerTick else missing
  }

  function FullBatch(c: Config, s: State, provider: Provider): multiset<Provider> {
    multiset{}[provider := PlanSize(c, s, provider)]
  }

  function Begun(c: Config, s: State, provider: Provider): Tick {
    Running(FullBatch(c, s, provider), {}, s.now)
  }

  ghost predicate AllIdle(s: State) {
    forall k :: 0 <= k < |s.ticks| ==> s.ticks[k].Idle?
  }

  lemma StartLeads(c: Config, s: State, slot: nat, provider: Provider)
    requires slot < |s.ticks| && s.ticks[slot].Idle? && c.targets.Keys == {provider}
    ensures Leads(c, s, s.(ticks := s.ticks[slot := Begun(c, s, provider)]), provider)
  {
    hide Leads, Advance, Remove, Deficit;
    var batch := FullBatch(c, s, provider);
    assert |batch| == PlanSize(c, s, provider);
    assert forall other :: other in batch ==> other == provider;
    assert IsPlan(c, s, s.now, batch);
    LeadsOneStep(c, s, TickStart(slot, s.now, batch), s.(ticks := s.ticks[slot := Begun(c, s, provider)]), provider);
  }

  lemma EndLeads(c: Config, s: State, slot: nat, provider: Provider)
    requires slot < |s.ticks|
    ensures Leads(c, s, s.(ticks := s.ticks[slot := Idle]), provider)
  {
    hide Leads, Advance, Remove;
    LeadsOneStep(c, s, TickEnd(slot), s.(ticks := s.ticks[slot := Idle]), provider);
  }

  /** The first `n` slots have counted, before any of them has created a host. */
  function Overlapping(c: Config, s: State, provider: Provider, n: nat): State {
    s.(ticks := seq(|s.ticks|, k => if k < n then Begun(c, s, provider) else Idle))
  }

  lemma {:induction false} TicksOverlap(c: Config, s: State, provider: Provider, n: nat)
    requires AllIdle(s) && n <= |s.ticks| && c.targets.Keys == {provider}
    ensures Leads(c, s, Overlapping(c, s, provider, n), provider)
  {
    hide Leads, Begun;
    var t := Overlapping(c, s, provider, n);
    if n == 0 {
      assert t.ticks == s.ticks;
      LeadsNowhere(c, s, provider);
    } else {
      var u := Overlapping(c, s, provider, n - 1);
      TicksOverlap(c, s, provider, n - 1);
      SameCount(c, s, u, provider);
      StartLeads(c, u, n - 1, provider);
      assert u.ticks[n - 1 := Begun(c, s, provider)] == t.ticks;
      LeadsOn(c, s, u, t, provider);
    }
  }

  lemma SameCount(c: Config, s: State, t: State, provider: Provider)
    requires t.rows == s.rows && t.now == s.now
    ensures Begun(c, t, provider) == Begun(c, s, provider) && WarmNow(t, provider) == WarmNow(s, provider)
  {
  }

  lemma {:induction false} SomePlanned(ticks: seq<Tick>, provider: Provider) returns (slot: nat)
    requires Pending(ticks, provider) > 0
    ensures slot < |ticks| && Planned(ticks[slot], provider) > 0
  {
    if Planned(ticks[0], provider) > 0 {
      slot := 0;
    } else {
      slot := SomePlanned(ticks[1..], provider);
      slot := slot + 1;
    }
  }

  /** The ticks make every host that they have planned. */
  lemma {:induction false} CreateAll(c: Config, s: State, provider: Provider) returns (t: State)
    requires CanCreate(c, s, provider)
    ensures Leads(c, s, t, provider)
    ensures |WarmNow(t, provider)| == |WarmNow(s, provider)| + Pending(s.ticks, provider)
    decreases Pending(s.ticks, provider)
  {
    hide Leads, CanCreate, WarmNow, Pending;
    if Pending(s.ticks, provider) == 0 {
      t := s;
      LeadsNowhere(c, s, provider);
    } else {
      var slot := SomePlanned(s.ticks, provider);
      var u := CreateOne(c, s, slot, provider);
      PendingUpdate(s.ticks, slot, u.ticks[slot], provider);
      t := CreateAll(c, u, provider);
      LeadsOn(c, s, u, t, provider);
    }
  }

  lemma {:induction false} PendingEach(ticks: seq<Tick>, provider: Provider, each: nat)
    requires forall k :: 0 <= k < |ticks| ==> Planned(ticks[k], provider) == each
    ensures Pending(ticks, provider) == |ticks| * each
  {
    if ticks == [] {
      assert Pending(ticks, provider) == 0;
    } else {
      assert forall k :: 0 <= k < |ticks[1..]| ==> ticks[1..][k] == ticks[k + 1];
      PendingEach(ticks[1..], provider, each);
    }
  }

  lemma PlanIsPending(c: Config, s: State, provider: Provider)
    ensures Pending(Overlapping(c, s, provider, |s.ticks|).ticks, provider) == |s.ticks| * PlanSize(c, s, provider)
  {
    hide Pending, PlanSize;
    var ticks := Overlapping(c, s, provider, |s.ticks|).ticks;
    assert Begun(c, s, provider).batch[provider] == PlanSize(c, s, provider);
    forall k | 0 <= k < |ticks|
      ensures Planned(ticks[k], provider) == PlanSize(c, s, provider)
    {
      assert ticks[k] == Begun(c, s, provider);
    }
    PendingEach(ticks, provider, PlanSize(c, s, provider));
  }

  /** Ticks that all count before any of them creates make their whole plans, one on top of the other. */
  lemma OverlapLeads(c: Config, s: State, provider: Provider) returns (t: State)
    requires CanCreate(c, s, provider) && AllIdle(s)
    ensures Leads(c, s, t, provider)
    ensures |WarmNow(t, provider)| == |WarmNow(s, provider)| + |s.ticks| * PlanSize(c, s, provider)
  {
    hide Leads, WarmNow, Begun, PlanSize;
    var u := Overlapping(c, s, provider, |s.ticks|);
    TicksOverlap(c, s, provider, |s.ticks|);
    SameCount(c, s, u, provider);
    PlanIsPending(c, s, provider);
    t := CreateAll(c, u, provider);
    LeadsOn(c, s, u, t, provider);
  }

  /** A tick that stops after its first host. */
  lemma AddOne(c: Config, s: State, provider: Provider) returns (t: State)
    requires CanCreate(c, s, provider) && AllIdle(s) && |s.ticks| > 0 && PlanSize(c, s, provider) > 0
    ensures Leads(c, s, t, provider) && CanCreate(c, t, provider) && AllIdle(t)
    ensures t.now == s.now && |t.ticks| == |s.ticks| && |WarmNow(t, provider)| == |WarmNow(s, provider)| + 1
  {
    hide Leads, WarmNow, PlanSize;
    var s1 := s.(ticks := s.ticks[0 := Begun(c, s, provider)]);
    StartLeads(c, s, 0, provider);
    SameCount(c, s, s1, provider);
    var s2 := CreateOne(c, s1, 0, provider);
    t := s2.(ticks := s2.ticks[0 := Idle]);
    EndLeads(c, s2, 0, provider);
    SameCount(c, s2, t, provider);
    LeadsOn(c, s, s1, s2, provider);
    LeadsOn(c, s, s2, t, provider);
  }

  /** The pool can stand anywhere up to its target. */
  lemma {:induction false} FillTo(c: Config, s: State, provider: Provider, w: nat) returns (t: State)
    requires CanCreate(c, s, provider) && AllIdle(s) && |s.ticks| > 0 && c.createsPerTick > 0
    requires |WarmNow(s, provider)| <= w <= PoolTarget(c, provider)
    ensures Leads(c, s, t, provider) && CanCreate(c, t, provider) && AllIdle(t)
    ensures |t.ticks| == |s.ticks| && |WarmNow(t, provider)| == w
    decreases w - |WarmNow(s, provider)|
  {
    hide Leads, CanCreate, AllIdle, WarmNow;
    if |WarmNow(s, provider)| == w {
      t := s;
      LeadsNowhere(c, s, provider);
    } else {
      RoomBelowTarget(c, s, provider);
      var u := AddOne(c, s, provider);
      t := FillTo(c, u, provider, w);
      LeadsOn(c, s, u, t, provider);
    }
  }

  lemma RoomBelowTarget(c: Config, s: State, provider: Provider)
    requires |WarmNow(s, provider)| <= PoolTarget(c, provider)
    ensures var missing := PoolTarget(c, provider) - |WarmNow(s, provider)|;
            PlanSize(c, s, provider) == if c.createsPerTick <= missing then c.createsPerTick else missing
  {
  }

  /** From any count below the target, as many ticks as there are slots can each add the whole plan of the first. */
  lemma OverlapsAddUp(c: Config, s: State, provider: Provider)
    requires CanCreate(c, s, provider) && AllIdle(s) && |WarmNow(s, provider)| <= PoolTarget(c, provider)
    ensures var missing := PoolTarget(c, provider) - |WarmNow(s, provider)|;
            var each := if c.createsPerTick <= missing then c.createsPerTick else missing;
            exists t :: Leads(c, s, t, provider)
                        && |WarmNow(t, provider)| == |WarmNow(s, provider)| + |s.ticks| * each
  {
    hide Leads, CanCreate, AllIdle, WarmNow;
    RoomBelowTarget(c, s, provider);
    var t := OverlapLeads(c, s, provider);
  }

  // ---- The bound is reached ----

  lemma {:induction false} NothingReturned(states: seq<State>, provider: Provider, i: nat)
    requires i < |states| && forall k :: 0 <= k < i ==> !IsReturn(states[k], states[k + 1], provider)
    ensures Returns(states, provider, i) == 0
  {
    hide IsReturn;
    if i == 0 {
      assert Returns(states, provider, 0) == 0;
    } else {
      NothingReturned(states, provider, i - 1);
    }
  }

  lemma StartCanCreate(c: Config, s: State, provider: Provider)
    requires Start(s) && c.targets.Keys == {provider} && provider !in c.hostLimits && (provider in c.tailnet ==> c.tailscale)
    ensures CanCreate(c, s, provider) && AllIdle(s) && WarmNow(s, provider) == {}
  {
  }

  /** From an empty pool, the most that overlapping ticks ever reach. */
  lemma BoundIsReached(c: Config, s: State, provider: Provider) returns (t: State)
    requires Start(s) && |s.ticks| > 0 && c.createsPerTick > 0 && c.targets.Keys == {provider}
    requires provider !in c.hostLimits && (provider in c.tailnet ==> c.tailscale)
    ensures Leads(c, s, t, provider)
    ensures |WarmNow(t, provider)| == PoolTarget(c, provider) + (|s.ticks| - 1) * PerTick(c, provider)
  {
    hide Leads, CanCreate, AllIdle, WarmNow, Start;
    StartCanCreate(c, s, provider);
    var each := PerTick(c, provider);
    var u := FillTo(c, s, provider, PoolTarget(c, provider) - each);
    RoomBelowTarget(c, u, provider);
    t := OverlapLeads(c, u, provider);
    LeadsOn(c, s, u, t, provider);
    assert |s.ticks| * each == (|s.ticks| - 1) * each + each;
  }

  /** Over-provisioning, exactly. If the provider is the only one with a pool and has no limit of its own, the runs of `k`
      tick slots from an empty pool, in which no lost race hands a member back, reach `n` warm members if and only if
      n <= target + (k - 1) * min(cap, target). */
  lemma PoolReachesExactly(c: Config, s: State, provider: Provider, n: nat)
    requires Start(s) && |s.ticks| > 0 && c.createsPerTick > 0 && c.targets.Keys == {provider}
    requires provider !in c.hostLimits && (provider in c.tailnet ==> c.tailscale)
    ensures (exists t :: Leads(c, s, t, provider) && |WarmNow(t, provider)| >= n)
            <==> n <= PoolTarget(c, provider) + (|s.ticks| - 1) * PerTick(c, provider)
  {
    hide WarmNow, Start, IsReturn, IsRun, IsWhole;
    if n <= PoolTarget(c, provider) + (|s.ticks| - 1) * PerTick(c, provider) {
      var t := BoundIsReached(c, s, provider);
    } else {
      forall t | Leads(c, s, t, provider)
        ensures |WarmNow(t, provider)| < n
      {
        var states, actions :| Links(c, states, actions, s, t, provider);
        RunLength(c, states, actions);
        PoolFromEmpty(c, states, actions, provider, |actions|);
        NothingReturned(states, provider, |actions|);
      }
    }
  }
}
