/** The theorems from the start of the service, where no request has begun: what holds in every reachable state. */
module HostReachable {
  import opened Wrappers
  import opened HostModel
  import opened HostProtocol
  import opened HostSafety
  import opened HostClaims
  import opened HostIdempotency
  import opened HostLeases
  import opened HostLosers
  import opened HostTeardown
  import opened HostCapacity
  import opened PoolBound

  /** Every invariant that a theorem asks of its first state holds at the start. */
  lemma StartIsSound(c: Config, s: State)
    requires Start(s)
    ensures Safe(c, s) && Claims(c, s) && TeardownOk(s) && NobodyAwaits(s)
    ensures forall k :: Converging(s, k)
    ensures forall provider :: Capped(c, s, provider)
    ensures forall provider :: provider in c.hostLimits ==> WithinProvider(c, s, provider)
    ensures c.accountLimit.Some? ==> forall a :: WithinAccount(c, s, a)
  {
    StartClaims(c, s);
    hide Claims, Safe;
    forall provider | provider in c.hostLimits
      ensures WithinProvider(c, s, provider)
    {
      assert LiveOfProvider(s, provider) == {};
    }
    if c.accountLimit.Some? {
      forall a
        ensures WithinAccount(c, s, a)
      {
        assert LiveOfAccount(s, a) == {};
      }
    }
  }

  ghost predicate FromStart(c: Config, states: seq<State>, actions: seq<Action>) {
    IsRun(c, states, actions) && Start(states[0])
  }

  lemma ReachableIsSafe(c: Config, states: seq<State>, actions: seq<Action>, i: nat)
    requires FromStart(c, states, actions) && i < |states|
    ensures Safe(c, states[i]) && Claims(c, states[i])
  {
    StartIsSound(c, states[0]);
    hide IsRun, Safe, Claims;
    RunClaims(c, states, actions, i);
    IsSafe(c, states[i]);
  }

  /** All requests with one key that answer, answer with one host. */
  lemma OneHostPerKey(c: Config, states: seq<State>, actions: seq<Action>, k: Key, i: nat, p: Pid, j: nat, q: Pid)
    requires FromStart(c, states, actions) && i < |states| && j < |states| && RecordStays(states, k)
    requires p in states[i].procs && states[i].procs[p].Creator? && states[i].procs[p].req.key == Some(k)
    requires q in states[j].procs && states[j].procs[q].Creator? && states[j].procs[q].req.key == Some(k)
    requires states[i].procs[p].pc.Returned? && states[j].procs[q].pc.Returned?
    ensures states[i].procs[p].pc.host == states[j].procs[q].pc.host
  {
    StartIsSound(c, states[0]);
    hide Claims, Converging, RecordStays;
    IdempotencyConverges(c, states, actions, k, i, p, j, q);
  }

  /** A loser answers with the winner, after it let its own host go. */
  lemma LosersAnswerWithWinner(c: Config, states: seq<State>, actions: seq<Action>, k: Key, j: nat, p: Pid, own: HostId)
    returns (i: nat)
    requires FromStart(c, states, actions) && j < |actions| && RecordStays(states, k)
    requires p in states[j].procs && states[j].procs[p].Creator? && states[j].procs[p].req.key == Some(k)
    requires states[j].procs[p].pc.ReadKeyHost? && states[j].procs[p].pc.lost == Some(own)
    requires actions[j].Go? && actions[j].p == p
    requires p in states[j + 1].procs && states[j + 1].procs[p].Creator? && states[j + 1].procs[p].pc.Returned?
    ensures states[j + 1].procs[p].pc.host != own
    ensures i < j && LetsGo(states[i], actions[i], p, own)
    ensures GoneOrReleased(states[j + 1], own) || RelettedByOther(states, actions, i, j, p, own)
  {
    StartIsSound(c, states[0]);
    hide Claims, Converging, RecordStays, NobodyAwaits, LetsGo, GoneOrReleased, RelettedByOther;
    i := LoserReturnsWinner(c, states, actions, k, j, p, own);
  }

  /** No host is in two hands, and only pool members are claimed or shed. */
  lemma OneHolderPerHost(c: Config, states: seq<State>, actions: seq<Action>, i: nat, p: Pid, q: Pid)
    requires FromStart(c, states, actions) && i < |states|
    requires p in states[i].procs && q in states[i].procs && p != q && Holds(states[i].procs[p]).Some?
    ensures Holds(states[i].procs[p]) != Holds(states[i].procs[q])
  {
    StartIsSound(c, states[0]);
    hide Claims, Holds;
    ExclusiveClaims(c, states, actions, i);
  }

  /** Nothing leaks past the janitor. */
  lemma JanitorSeesAll(c: Config, states: seq<State>, actions: seq<Action>, i: nat, id: HostId)
    requires FromStart(c, states, actions) && i < |states| && id in states[i].rows
    ensures var row := states[i].rows[id];
            && (row.status != Active ==> row.expiresAt.Some?)
            && (row.status == Error ==> row.expiresAt.value <= states[i].now)
            && (row.expiresAt.None? ==> row.status == Active && row.permanent && row.provider !in c.maxLifetime)
  {
    StartIsSound(c, states[0]);
    hide Safe;
    NothingLeaks(c, states, actions, i, id);
  }

  /** Each VM is named by a row, if no reap takes a row while its create_vm call is under way. */
  lemma EveryVmHasItsRow(c: Config, states: seq<State>, actions: seq<Action>, i: nat, vm: Vm)
    requires FromStart(c, states, actions) && i < |states| && vm in states[i].vms
    requires forall k :: 0 <= k < |actions| ==> ReapsAbandoned(states[k], actions[k])
    ensures exists id :: id in states[i].rows && states[i].rows[id].provider == vm.provider && states[i].rows[id].name == vm.name
  {
    StartIsSound(c, states[0]);
    hide Safe, TeardownOk, ReapsAbandoned;
    NoVmIsOrphaned(c, states, actions, i);
  }

  /** A limited provider is never over its limit, if no step is about to extend a lapsed row of it. */
  lemma ProviderStaysWithin(c: Config, states: seq<State>, actions: seq<Action>, provider: Provider, i: nat)
    requires FromStart(c, states, actions) && i < |states| && provider in c.hostLimits
    requires forall k :: 0 <= k < |actions| ==> !MayRevive(c, states[k], actions[k], provider)
    ensures |LiveOfProvider(states[i], provider)| <= c.hostLimits[provider]
  {
    StartIsSound(c, states[0]);
    hide Safe, WithinProvider, MayRevive;
    ProviderCapacity(c, states, actions, provider, i);
  }

  /** No account is over its limit either, if it loses no claim. */
  lemma AccountStaysWithin(c: Config, states: seq<State>, actions: seq<Action>, a: Account, i: nat)
    requires FromStart(c, states, actions) && i < |states| && c.accountLimit.Some? && a != ADMIN
    requires forall k :: 0 <= k < |actions| ==>
               NothingRevives(states[k], states[k + 1]) && ClaimsWin(states[k], actions[k], a)
    ensures |LiveOfAccount(states[i], a)| <= c.accountLimit.value
  {
    StartIsSound(c, states[0]);
    hide Safe, WithinAccount, NothingRevives, ClaimsWin;
    AccountCapacity(c, states, actions, a, i);
  }

  /** From an empty pool the bound is target + (slots - 1) * min(cap, target), plus the lost-race returns. */
  lemma PoolFromEmpty(c: Config, states: seq<State>, actions: seq<Action>, provider: Provider, i: nat)
    requires FromStart(c, states, actions) && i < |states|
    ensures |WarmNow(states[i], provider)| <=
            PoolTarget(c, provider)
            + (if |states[0].ticks| == 0 then 0 else (|states[0].ticks| - 1) * PerTick(c, provider))
            + Returns(states, provider, i)
  {
    hide Safe, Claims, Capped, WarmNow, IsReturn, Pending, IsRun, Start;
    StartIsSound(c, states[0]);
    NothingPlanned(states[0], provider);
    PoolStaysBounded(c, states, actions, provider, i);
  }

  lemma NothingPlanned(s: State, provider: Provider)
    requires Start(s)
    ensures WarmNow(s, provider) == {} && Pending(s.ticks, provider) == 0
  {
    NothingPending(s.ticks, provider);
  }

  lemma {:induction false} NothingPending(ticks: seq<Tick>, provider: Provider)
    requires forall k :: 0 <= k < |ticks| ==> ticks[k].Idle?
    ensures Pending(ticks, provider) == 0
  {
    if ticks == [] {
      assert Pending(ticks, provider) == 0;
    } else {
      NothingPending(ticks[1..], provider);
    }
  }
}
