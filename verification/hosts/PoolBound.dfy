/** The warm pool stays bounded when maintenance ticks overlap. */
module PoolBound {
  import opened HostModel
  import opened HostProtocol
  import opened HostSafety
  import opened HostClaims
  import opened HostCapacity

  /** What a tick may still create for a provider. */
  function Planned(tick: Tick, provider: Provider): nat {
    if tick.Running? then tick.batch[provider] else 0
  }

  function Pending(ticks: seq<Tick>, provider: Provider): nat {
    if ticks == [] then 0 else Planned(ticks[0], provider) + Pending(ticks[1..], provider)
  }

  lemma {:induction false} PendingUpdate(ticks: seq<Tick>, slot: nat, tick: Tick, provider: Provider)
    requires slot < |ticks|
    ensures Pending(ticks[slot := tick], provider) + Planned(ticks[slot], provider)
            == Pending(ticks, provider) + Planned(tick, provider)
  {
    if slot == 0 {
      assert ticks[slot := tick][1..] == ticks[1..];
    } else {
      assert ticks[slot := tick][1..] == ticks[1..][slot - 1 := tick];
      PendingUpdate(ticks[1..], slot - 1, tick, provider);
    }
  }

  /** The other slots plan at most the cap each. */
  lemma {:induction false} PendingOthers(ticks: seq<Tick>, slot: nat, provider: Provider, cap: nat)
    requires slot < |ticks|
    requires forall k :: 0 <= k < |ticks| ==> Planned(ticks[k], provider) <= cap
    ensures Pending(ticks, provider) <= Planned(ticks[slot], provider) + (|ticks| - 1) * cap
  {
    var rest := ticks[1..];
    assert forall k :: 0 <= k < |rest| ==> rest[k] == ticks[k + 1];
    if slot == 0 {
      PendingAll(rest, provider, cap);
    } else {
      PendingOthers(rest, slot - 1, provider, cap);
    }
  }

  lemma {:induction false} PendingAll(ticks: seq<Tick>, provider: Provider, cap: nat)
    requires forall k :: 0 <= k < |ticks| ==> Planned(ticks[k], provider) <= cap
    ensures Pending(ticks, provider) <= |ticks| * cap
  {
    if ticks == [] {
    } else {
      assert forall k :: 0 <= k < |ticks[1..]| ==> ticks[1..][k] == ticks[k + 1];
      PendingAll(ticks[1..], provider, cap);
    }
  }

  function PoolTarget(c: Config, provider: Provider): nat {
    if provider in c.targets then c.targets[provider] else 0
  }

  /** The most that one tick creates for a provider. */
  function PerTick(c: Config, provider: Provider): nat {
    if c.createsPerTick <= PoolTarget(c, provider) then c.createsPerTick else PoolTarget(c, provider)
  }

  ghost predicate Capped(c: Config, s: State, provider: Provider) {
    forall k :: 0 <= k < |s.ticks| ==> Planned(s.ticks[k], provider) <= PerTick(c, provider)
  }

  lemma BatchWithin(batch: multiset<Provider>, provider: Provider)
    ensures batch[provider] <= |batch|
  {
    assert multiset{}[provider := batch[provider]] <= batch;
    assert |batch| == |multiset{}[provider := batch[provider]]| + |batch - multiset{}[provider := batch[provider]]|;
  }

  // ---- What a step does to the pool ----

  /** A lease that is kept or cut short. */
  predicate NoLonger(was: Row, row: Row, now: Time) {
    || row.expiresAt == was.expiresAt
    || (row.expiresAt.Some? && row.expiresAt.value <= now)
    || (row.expiresAt.Some? && was.expiresAt.Some? && row.expiresAt.value <= was.expiresAt.value)
  }

  /** An unclaimed pool member that stays unclaimed is never leased longer, and an insert is paid for by its tick. */
  ghost predicate PoolRowStep(s: State, e: Effect) {
    && (e.row.PutRow? && e.row.id in s.rows && s.rows[e.row.id].poolMember
        && s.rows[e.row.id].claimedAt.None? && e.row.row.claimedAt.None? ==>
          NoLonger(s.rows[e.row.id], e.row.row, s.now))
    && (e.row.PutRow? && e.row.id !in s.rows && e.row.row.poolMember ==>
          && e.tick.SetTick? && e.tick.slot < |s.ticks|
          && s.ticks[e.tick.slot].Running? && e.row.row.provider in s.ticks[e.tick.slot].batch
          && e.tick.tick == s.ticks[e.tick.slot].(
               batch := s.ticks[e.tick.slot].batch - multiset{e.row.row.provider}))
  }

  /** A tick ends, spends a slot on an insert, or starts from idle with a batch within its count. */
  ghost predicate TickStep(c: Config, s: State, e: Effect) {
    e.tick.SetTick? && e.tick.slot < |s.ticks| ==>
      var was, tick := s.ticks[e.tick.slot], e.tick.tick;
      || tick.Idle?
      || (e.row.PutRow? && e.row.id !in s.rows && e.row.row.poolMember)
      || (was.Running? && e.row.KeepRows? && tick.batch == was.batch)
      || (was.Idle? && e.row.KeepRows? && e.clock.None? && exists at :: IsPlan(c, s, at, tick.batch))
  }

  lemma BuildPools(c: Config, s: State, p: Pid, req: Request, pc: Pc, choice: Choice)
    requires CreatorOk(c, s, req, pc) && pc.Provision?
    requires Build(c, s, p, req, pc.draft, pc.phase, choice).Some?
    ensures var e := Build(c, s, p, req, pc.draft, pc.phase, choice).value;
            PoolRowStep(s, e) && e.tick.KeepTicks?
  {
    hide RowFreeFor;
  }

  lemma AdvancePools(c: Config, s: State, p: Pid, req: Request, pc: Pc, choice: Choice)
    requires RowsOk(c, s) && CreatorOk(c, s, req, pc) && HoldOk(s, Creator(req, pc))
    requires Advance(c, s, p, req, pc, choice).Some?
    ensures var e := Advance(c, s, p, req, pc, choice).value; PoolRowStep(s, e) && TickStep(c, s, e)
  {
    if pc.Provision? {
      BuildPools(c, s, p, req, pc, choice);
      hide Build, PoolRowStep;
    } else {
      hide LeaseEnd, Live, IsCandidate, LiveOfProvider, LiveOfAccount, RowFreeFor, Build, StatusFits, DraftFits, RowOk;
    }
  }

  lemma RemovePools(c: Config, s: State, p: Pid, stage: Stage, choice: Choice)
    requires Remove(c, s, p, stage, choice).Some?
    ensures var e := Remove(c, s, p, stage, choice).value; PoolRowStep(s, e) && e.tick.KeepTicks?
  {
    hide RowFreeFor;
  }

  lemma OthersPool(c: Config, s: State, a: Action)
    requires !a.Go? && Enabled(c, s, a)
    ensures var e := Transition(c, s, a).value; PoolRowStep(s, e) && TickStep(c, s, e)
  {
    hide Advance, Remove, LeaseEnd, IsPlan, RowFree;
  }

  lemma TransitionPools(c: Config, s: State, a: Action)
    requires Safe(c, s) && HoldsOk(s) && Enabled(c, s, a)
    ensures var e := Transition(c, s, a).value; PoolRowStep(s, e) && TickStep(c, s, e)
  {
    hide Advance, Remove, PoolRowStep, IsPlan;
    if !a.Go? {
      OthersPool(c, s, a);
    } else {
      assert ProcOk(c, s, s.procs[a.p]) && HoldOk(s, s.procs[a.p]);
      match s.procs[a.p]
      case Creator(req, pc) => AdvancePools(c, s, a.p, req, pc, a.choice);
      case Deleter(stage) => RemovePools(c, s, a.p, stage, a.choice);
    }
  }

  /** A lost race hands a claimed member of the provider back. */
  ghost predicate IsReturn(s: State, t: State, provider: Provider) {
    exists id :: id in s.rows && id in t.rows && s.rows[id].provider == provider
                 && s.rows[id].claimedAt.Some? && t.rows[id].claimedAt.None?
  }

  function WarmNow(s: State, provider: Provider): set<HostId> {
    WarmOfProvider(s, provider, s.now)
  }

  predicate Inserts(s: State, e: Effect, provider: Provider) {
    e.row.PutRow? && e.row.id !in s.rows && e.row.row.poolMember && e.row.row.provider == provider
  }

  lemma WarmGrows(c: Config, s: State, e: Effect, provider: Provider)
    requires EffectSound(c, s, e) && PoolRowStep(s, e)
    ensures Inserts(s, e, provider) || IsReturn(s, Commit(s, e), provider) ==>
              e.row.PutRow? && WarmNow(Commit(s, e), provider) <= WarmNow(s, provider) + {e.row.id}
    ensures !Inserts(s, e, provider) && !IsReturn(s, Commit(s, e), provider) ==>
              WarmNow(Commit(s, e), provider) <= WarmNow(s, provider)
  {
    hide Gains, SparesOthers, ProcOk, RowOk;
    var t := Commit(s, e);
    if e.row.PutRow? && e.row.id in s.rows && e.row.row.provider == provider
       && s.rows[e.row.id].claimedAt.Some? && e.row.row.claimedAt.None? {
      assert e.row.id in t.rows && t.rows[e.row.id].claimedAt.None?;
      assert IsReturn(s, t, provider);
    }
  }

  /** The most that the live and planned members can reach: where the pool began, or the target plus what the other
      overlapping ticks may still create. */
  function Bound(c: Config, slots: nat, provider: Provider, initial: nat): nat {
    var overlap := PoolTarget(c, provider) + (if slots == 0 then 0 else (slots - 1) * PerTick(c, provider));
    if initial >= overlap then initial else overlap
  }

  lemma PlanWithin(c: Config, s: State, provider: Provider, at: Time, batch: multiset<Provider>)
    requires IsPlan(c, s, at, batch)
    ensures batch[provider] <= PerTick(c, provider)
    ensures batch[provider] > 0 ==> |WarmNow(s, provider)| + batch[provider] <= PoolTarget(c, provider)
  {
    BatchWithin(batch, provider);
    assert WarmNow(s, provider) <= WarmOfProvider(s, provider, at);
    Subset(WarmNow(s, provider), WarmOfProvider(s, provider, at));
    if batch[provider] > 0 {
      assert provider in batch;
    }
  }

  /** What a step of a tick adds to the plans. */
  lemma PendingStep(c: Config, s: State, e: Effect, provider: Provider)
    requires Capped(c, s, provider) && PoolRowStep(s, e) && TickStep(c, s, e)
    ensures Capped(c, Commit(s, e), provider)
    ensures Inserts(s, e, provider) ==> Pending(Commit(s, e).ticks, provider) == Pending(s.ticks, provider) - 1
    ensures !Inserts(s, e, provider) ==>
              || Pending(Commit(s, e).ticks, provider) <= Pending(s.ticks, provider)
              || (e.row.KeepRows? && e.clock.None?
                  && |WarmNow(s, provider)| + Pending(Commit(s, e).ticks, provider) <= Bound(c, |s.ticks|, provider, 0))
  {
    if e.tick.SetTick? && e.tick.slot < |s.ticks| {
      var was, tick := s.ticks[e.tick.slot], e.tick.tick;
      PendingUpdate(s.ticks, e.tick.slot, tick, provider);
      if was.Idle? && tick.Running? && e.row.KeepRows? {
        var at :| IsPlan(c, s, at, tick.batch);
        PlanWithin(c, s, provider, at, tick.batch);
        PendingOthers(s.ticks, e.tick.slot, provider, PerTick(c, provider));
      }
      hide IsPlan, Pending, WarmNow;
    }
  }

  lemma OverlapsBound(c: Config, s: State, e: Effect, provider: Provider, initial: nat, given: nat)
    requires EffectSound(c, s, e) && PoolRowStep(s, e) && TickStep(c, s, e) && Capped(c, s, provider)
    requires |WarmNow(s, provider)| + Pending(s.ticks, provider) <= Bound(c, |s.ticks|, provider, initial) + given
    ensures Capped(c, Commit(s, e), provider) && |Commit(s, e).ticks| == |s.ticks|
    ensures |WarmNow(Commit(s, e), provider)| + Pending(Commit(s, e).ticks, provider)
            <= Bound(c, |s.ticks|, provider, initial) + given
               + (if IsReturn(s, Commit(s, e), provider) then 1 else 0)
  {
    var t := Commit(s, e);
    WarmGrows(c, s, e, provider);
    PendingStep(c, s, e, provider);
    hide EffectSound, PoolRowStep, TickStep, Capped, Pending, WarmNow, IsReturn;
    if Inserts(s, e, provider) || IsReturn(s, t, provider) {
      OneMore(WarmNow(t, provider), WarmNow(s, provider), e.row.id);
    } else {
      Subset(WarmNow(t, provider), WarmNow(s, provider));
    }
  }

  /** The lost-race given of the first `i` steps. */
  ghost function Returns(states: seq<State>, provider: Provider, i: nat): nat
    requires i < |states|
  {
    if i == 0 then 0
    else Returns(states, provider, i - 1) + (if IsReturn(states[i - 1], states[i], provider) then 1 else 0)
  }

  /** Bounded over-provisioning: with as many overlapping ticks as there are slots, the live unclaimed members of a
      provider never exceed the larger of where they began and target + (slots - 1) * min(cap, target), plus the lost-race
      returns, through any mix of claims, failures, expiries and sheds. */
  lemma {:induction false} PoolStaysBounded(c: Config, states: seq<State>, actions: seq<Action>, provider: Provider,
                                            i: nat)
    requires IsRun(c, states, actions) && Claims(c, states[0]) && Capped(c, states[0], provider) && i < |states|
    ensures Capped(c, states[i], provider) && |states[i].ticks| == |states[0].ticks|
    ensures |WarmNow(states[i], provider)| + Pending(states[i].ticks, provider)
            <= Bound(c, |states[0].ticks|, provider,
                     |WarmNow(states[0], provider)| + Pending(states[0].ticks, provider))
               + Returns(states, provider, i)
  {
    hide Claims, Capped, Pending, WarmNow, IsReturn, Transition, Commit;
    var initial := |WarmNow(states[0], provider)| + Pending(states[0].ticks, provider);
    if i == 0 {
    } else {
      PoolStaysBounded(c, states, actions, provider, i - 1);
      RunClaims(c, states, actions, i - 1);
      assert Enabled(c, states[i - 1], actions[i - 1]) && states[i] == Next(c, states[i - 1], actions[i - 1]);
      BoundKept(c, states[i - 1], actions[i - 1], provider, initial, Returns(states, provider, i - 1));
    }
  }

  lemma BoundKept(c: Config, s: State, a: Action, provider: Provider, initial: nat, given: nat)
    requires Claims(c, s) && Enabled(c, s, a) && Capped(c, s, provider)
    requires |WarmNow(s, provider)| + Pending(s.ticks, provider) <= Bound(c, |s.ticks|, provider, initial) + given
    ensures var t := Next(c, s, a);
            && Capped(c, t, provider) && |t.ticks| == |s.ticks|
            && |WarmNow(t, provider)| + Pending(t.ticks, provider)
               <= Bound(c, |s.ticks|, provider, initial) + given + (if IsReturn(s, t, provider) then 1 else 0)
  {
    hide Capped, Pending, WarmNow, IsReturn, Bound, Custody, PoolOnly, RowsOk, ProcsOk, LocksExclusive, DraftsDistinct,
         NamesUnique, KeysOk, Transition, Commit, EffectSound, PoolRowStep, TickStep, HoldsOk;
    CustodyHolds(s);
    TransitionSound(c, s, a);
    TransitionPools(c, s, a);
    OverlapsBound(c, s, Transition(c, s, a).value, provider, initial, given);
  }

  lemma CustodyHolds(s: State)
    requires Custody(s)
    ensures HoldsOk(s)
  {
    hide HoldsOk, HoldsDistinct, RecordsOk;
  }
}
