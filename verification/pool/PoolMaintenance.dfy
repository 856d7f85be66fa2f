/** One maintenance tick: what to create, what to shed, and when to give up. */
module PoolMaintenance {
  import opened HostModel
  import opened HostProtocol

  const MAX_CONSECUTIVE_CREATE_FAILURES := 3

  function Least(x: nat, y: nat): nat { if x <= y then x else y }

  ghost predicate Distinct<T(!new)>(xs: seq<T>) {
    forall i, j :: 0 <= i < j < |xs| ==> xs[i] != xs[j]
  }

  function Sum(order: seq<Provider>, amounts: map<Provider, nat>): nat
    requires forall p :: p in order ==> p in amounts
  {
    if order == [] then 0 else amounts[order[0]] + Sum(order[1..], amounts)
  }

  lemma {:induction false} SumAddsOne(order: seq<Provider>, amounts: map<Provider, nat>, p: Provider)
    requires forall q :: q in order ==> q in amounts
    requires Distinct(order) && p in amounts
    ensures Sum(order, amounts[p := amounts[p] + 1]) == Sum(order, amounts) + (if p in order then 1 else 0)
  {
    if order == [] {
    } else {
      SumAddsOne(order[1..], amounts, p);
      if order[0] == p {
        assert p !in order[1..];
      }
    }
  }

  lemma {:induction false} SumGrows(order: seq<Provider>, less: map<Provider, nat>, more: map<Provider, nat>)
    requires forall q :: q in order ==> q in less && q in more && less[q] <= more[q]
    ensures Sum(order, less) <= Sum(order, more)
    ensures (forall q :: q in order ==> less[q] == more[q]) ==> Sum(order, less) == Sum(order, more)
  {
    if order == [] {
    } else {
      SumGrows(order[1..], less, more);
    }
  }

  // ---- The round-robin batch ----

  /** The keys still in the dictionary, in the order they went in. */
  function Listing(order: seq<Provider>, left: map<Provider, nat>): (keys: seq<Provider>)
    ensures forall p :: p in keys <==> p in order && p in left
    ensures |keys| <= |order|
  {
    if order == [] then []
    else (if order[0] in left then [order[0]] else []) + Listing(order[1..], left)
  }

  lemma {:induction false} ListingDistinct(order: seq<Provider>, left: map<Provider, nat>)
    requires Distinct(order)
    ensures Distinct(Listing(order, left))
  {
    if order == [] {
    } else {
      ListingDistinct(order[1..], left);
    }
  }

  ghost predicate Shares(order: seq<Provider>, batch: seq<Provider>, share: map<Provider, nat>) {
    && (forall p :: p in order ==> p in share && multiset(batch)[p] == share[p])
    && (forall p :: p in batch ==> p in order)
    && |batch| == Sum(order, share)
  }

  /** A provider is in the dictionary while its deficit is not met, with what is left of it. */
  ghost predicate Remaining(order: seq<Provider>, deficits: map<Provider, nat>, share: map<Provider, nat>,
                            left: map<Provider, nat>)
    requires forall p :: p in order ==> p in deficits && p in share
  {
    && (forall p :: p in left ==> p in order)
    && (forall p :: p in order ==>
          && share[p] <= deficits[p]
          && (p in left <==> share[p] < deficits[p])
          && (p in left ==> left[p] == deficits[p] - share[p]))
  }

  /** The state of the allocator: what each provider has, and what is left of its deficit. */
  ghost predicate Books(order: seq<Provider>, deficits: map<Provider, nat>, batch: seq<Provider>,
                        share: map<Provider, nat>, left: map<Provider, nat>)
  {
    && (forall p :: p in order ==> p in deficits)
    && Shares(order, batch, share)
    && Remaining(order, deficits, share, left)
  }

  /** After `rounds` full rounds, and perhaps a part of the next. */
  ghost predicate Level(order: seq<Provider>, deficits: map<Provider, nat>, share: map<Provider, nat>, rounds: nat,
                        exact: bool)
    requires forall p :: p in order ==> p in deficits && p in share
  {
    forall p :: p in order ==>
      && Least(rounds, deficits[p]) <= share[p] <= Least(rounds + 1, deficits[p])
      && (exact ==> share[p] == Least(rounds, deficits[p]))
  }

  /** The walk of one round has passed `i` providers. */
  ghost predicate Walked(order: seq<Provider>, deficits: map<Provider, nat>, share: map<Provider, nat>,
                         left: map<Provider, nat>, walk: seq<Provider>, i: nat, rounds: nat)
    requires forall p :: p in order ==> p in deficits && p in share
  {
    && Distinct(walk) && i <= |walk| && (forall p :: p in walk ==> p in order)
    && (forall j :: 0 <= j < i ==> share[walk[j]] == rounds + 1)
    && (forall j :: i <= j < |walk| ==> share[walk[j]] == rounds && walk[j] in left)
    && (forall p :: p in order && p !in walk ==> share[p] == deficits[p] <= rounds)
  }

  function OneMore(share: map<Provider, nat>, p: Provider): (more: map<Provider, nat>)
    requires p in share
    ensures more.Keys == share.Keys
  {
    share[p := share[p] + 1]
  }

  /** The decrement, and the delete of a key that reached zero. */
  function OneLess(left: map<Provider, nat>, p: Provider): map<Provider, nat>
    requires p in left && left[p] > 0
  {
    if left[p] == 1 then left - {p} else left[p := left[p] - 1]
  }

  lemma StartsWalk(order: seq<Provider>, deficits: map<Provider, nat>, batch: seq<Provider>,
                   share: map<Provider, nat>, left: map<Provider, nat>, rounds: nat)
    requires Distinct(order) && Books(order, deficits, batch, share, left)
    requires Level(order, deficits, share, rounds, true) && left != map[]
    ensures Walked(order, deficits, share, left, Listing(order, left), 0, rounds)
    ensures Listing(order, left) != []
  {
    ListingDistinct(order, left);
    WalkIsNotEmpty(order, left);
  }

  /** One provider gets one more slot of the batch, and leaves the dictionary when its deficit is met. */
  lemma WalksOn(order: seq<Provider>, deficits: map<Provider, nat>, batch: seq<Provider>,
                share: map<Provider, nat>, left: map<Provider, nat>, walk: seq<Provider>, i: nat, rounds: nat)
    requires Distinct(order) && Books(order, deficits, batch, share, left) && i < |walk|
    requires Walked(order, deficits, share, left, walk, i, rounds)
    ensures walk[i] in left && walk[i] in share && left[walk[i]] > 0
    ensures Books(order, deficits, batch + [walk[i]], OneMore(share, walk[i]), OneLess(left, walk[i]))
    ensures Walked(order, deficits, OneMore(share, walk[i]), OneLess(left, walk[i]), walk, i + 1, rounds)
  {
    SumAddsOne(order, share, walk[i]);
    hide Sum;
  }

  lemma EndsWalk(order: seq<Provider>, deficits: map<Provider, nat>, batch: seq<Provider>,
                 share: map<Provider, nat>, left: map<Provider, nat>, walk: seq<Provider>, i: nat, rounds: nat)
    requires Books(order, deficits, batch, share, left)
    requires Walked(order, deficits, share, left, walk, i, rounds)
    ensures if i == |walk| then Level(order, deficits, share, rounds + 1, true)
            else Level(order, deficits, share, rounds, false)
  {
    forall p | p in walk
      ensures rounds <= share[p] <= rounds + 1 && share[p] <= deficits[p] && (i == |walk| ==> share[p] == rounds + 1)
    {
      var j :| 0 <= j < |walk| && walk[j] == p;
    }
  }

  /** The finished batch: its length, its bounds, and its fairness. */
  ghost predicate FairBatch(order: seq<Provider>, deficits: map<Provider, nat>, cap: nat, batch: seq<Provider>)
    requires forall p :: p in order ==> p in deficits
  {
    && |batch| == Least(cap, Sum(order, deficits))
    && (forall p :: p in batch ==> p in order)
    && (forall p :: p in order ==> multiset(batch)[p] <= deficits[p])
    && (forall p, q :: p in order && q in order ==>
          multiset(batch)[p] <= multiset(batch)[q] + 1 || multiset(batch)[q] == deficits[q])
  }

  lemma Finishes(order: seq<Provider>, deficits: map<Provider, nat>, cap: nat, batch: seq<Provider>,
                 share: map<Provider, nat>, left: map<Provider, nat>, rounds: nat, exact: bool)
    requires Books(order, deficits, batch, share, left) && Level(order, deficits, share, rounds, exact)
    requires |batch| <= cap && (left == map[] || |batch| == cap)
    ensures FairBatch(order, deficits, cap, batch)
  {
    SumGrows(order, share, deficits);
    hide Sum;
  }

  /** The batch of one tick: capped round-robin over the underfilled providers, whose inner loop deletes from the
      dictionary it walks. */
  method PlanBatch(order: seq<Provider>, deficits: map<Provider, nat>, cap: nat) returns (batch: seq<Provider>)
    requires Distinct(order) && forall p :: p in order ==> p in deficits && deficits[p] > 0
    ensures FairBatch(order, deficits, cap, batch)
  {
    hide Distinct, Least;
    batch := [];
    var left := map p | p in order :: deficits[p];
    ghost var share := map p | p in order :: 0 as nat;
    ghost var rounds, exact := 0, true;
    StartsEmpty(order, deficits, share, left);
    hide Books, Level, Walked, FairBatch, Listing, OneMore, OneLess;
    while left != map[] && |batch| < cap
      invariant |batch| <= cap && (exact || |batch| == cap)
      invariant Books(order, deficits, batch, share, left) && forall p :: p in order ==> p in share
      invariant Level(order, deficits, share, rounds, exact)
      decreases cap - |batch|
    {
      var walk := Listing(order, left);
      StartsWalk(order, deficits, batch, share, left, rounds);
      ghost var before := |batch|;
      var i := 0;
      while i < |walk|
        invariant 0 <= i <= |walk| && |batch| <= cap && |batch| == before + i
        invariant Books(order, deficits, batch, share, left) && forall p :: p in order ==> p in share
        invariant Walked(order, deficits, share, left, walk, i, rounds)
      {
        if |batch| == cap {
          break;
        }
        var provider := walk[i];
        WalksOn(order, deficits, batch, share, left, walk, i, rounds);
        batch := batch + [provider];
        left := OneLess(left, provider);
        share := OneMore(share, provider);
        i := i + 1;
      }
      EndsWalk(order, deficits, batch, share, left, walk, i, rounds);
      exact := i == |walk|;
      rounds := if exact then rounds + 1 else rounds;
    }
    Finishes(order, deficits, cap, batch, share, left, rounds, exact);
  }

  lemma WalkIsNotEmpty(order: seq<Provider>, left: map<Provider, nat>)
    requires left != map[] && forall p :: p in left ==> p in order
    ensures Listing(order, left) != []
  {
    var p :| p in left;
    assert p in Listing(order, left);
  }

  lemma StartsEmpty(order: seq<Provider>, deficits: map<Provider, nat>, share: map<Provider, nat>,
                    left: map<Provider, nat>)
    requires forall p :: p in order ==> p in deficits && deficits[p] > 0
    requires share == map p | p in order :: 0 as nat
    requires left == map p | p in order :: deficits[p]
    ensures Books(order, deficits, [], share, left) && Level(order, deficits, share, 0, true)
  {
    EmptyShares(order, share);
    hide Sum;
  }

  lemma {:induction false} EmptyShares(order: seq<Provider>, share: map<Provider, nat>)
    requires forall p :: p in order ==> p in share && share[p] == 0
    ensures Shares(order, [], share)
  {
    if order == [] {
    } else {
      EmptyShares(order[1..], share);
    }
  }

  // ---- The whole plan of a tick ----

  function TargetOf(c: Config, p: Provider): nat { if p in c.targets then c.targets[p] else 0 }

  function Elements(ids: seq<HostId>): (elements: set<HostId>)
    ensures forall id :: id in elements <==> id in ids
  {
    set id | id in ids
  }

  /** What the conditions of both queries select for a provider. */
  ghost function Selected(s: State, at: Time, p: Provider): (ids: set<HostId>) {
    set id | id in s.rows && s.rows[id].provider == p && s.rows[id].poolMember && s.rows[id].claimedAt.None?
             && s.rows[id].status != Error && (s.rows[id].expiresAt.None? || s.rows[id].expiresAt.value > at)
  }

  /** They are the warm members of the protocol. */
  lemma SelectedIsWarm(s: State, at: Time, p: Provider)
    ensures Selected(s, at, p) == WarmOfProvider(s, p, at)
  {
  }

  /** The counts of the first query, which leave out a provider without warm members. */
  ghost predicate Counted(s: State, at: Time, current: map<Provider, nat>) {
    forall p :: if p in current then current[p] == |Selected(s, at, p)| else Selected(s, at, p) == {}
  }

  /** The answer of the ordered query for one provider, at the moment it runs: its warm members, oldest first. */
  ghost predicate Lists(t: State, at: Time, p: Provider, ids: seq<HostId>) {
    && Distinct(ids) && Elements(ids) == Selected(t, at, p)
    && (forall i, j :: 0 <= i < j < |ids| && ids[i] in t.rows && ids[j] in t.rows ==>
          t.rows[ids[i]].createdAt <= t.rows[ids[j]].createdAt)
  }

  function Current(current: map<Provider, nat>, p: Provider): nat { if p in current then current[p] else 0 }

  function Excess(c: Config, current: map<Provider, nat>, p: Provider): nat {
    if Current(current, p) > TargetOf(c, p) then Current(current, p) - TargetOf(c, p) else 0
  }

  /** What the sweep sheds of one provider: the front of its list, as long as the count was too high. */
  function Surplus(c: Config, current: map<Provider, nat>, p: Provider, ids: seq<HostId>): (surplus: seq<HostId>) {
    ids[..Least(Excess(c, current, p), |ids|)]
  }

  /** The surplus of each provider, in the order of the sweep. */
  function ShedList(c: Config, current: map<Provider, nat>, listed: map<Provider, seq<HostId>>, sweep: seq<Provider>)
    : (excess: seq<HostId>)
    requires forall p :: p in sweep ==> p in listed
  {
    if sweep == [] then []
    else
      var n := |sweep| - 1;
      ShedList(c, current, listed, sweep[..n]) + Surplus(c, current, sweep[n], listed[sweep[n]])
  }

  /** The shed list, over the union of configured and present providers. `listed` is what each query answers. */
  method SelectExcess(c: Config, current: map<Provider, nat>, listed: map<Provider, seq<HostId>>, sweep: seq<Provider>)
    returns (excess: seq<HostId>)
    requires forall p :: p in sweep ==> p in listed
    ensures excess == ShedList(c, current, listed, sweep)
    ensures forall id :: id in excess <==> exists p :: p in sweep && id in Surplus(c, current, p, listed[p])
  {
    excess := [];
    for i := 0 to |sweep|
      invariant excess == ShedList(c, current, listed, sweep[..i])
      invariant forall id :: id in excess <==> exists k :: 0 <= k < i && id in Surplus(c, current, sweep[k], listed[sweep[k]])
    {
      var p := sweep[i];
      var shed := Current(current, p) - TargetOf(c, p);
      assert sweep[..i + 1][..i] == sweep[..i];
      if shed > 0 {
        excess := excess + listed[p][..Least(shed, |listed[p]|)];
      } else {
        assert Surplus(c, current, p, listed[p]) == [];
      }
    }
    assert sweep[..|sweep|] == sweep;
    forall id, p | p in sweep && id in Surplus(c, current, p, listed[p])
      ensures id in excess
    {
      var k :| 0 <= k < |sweep| && sweep[k] == p;
    }
  }

  lemma {:induction false} DistinctSize(ids: seq<HostId>)
    requires Distinct(ids)
    ensures |Elements(ids)| == |ids|
  {
    if ids == [] {
      assert Elements(ids) == {};
    } else {
      DistinctSize(ids[1..]);
      assert ids == [ids[0]] + ids[1..];
      assert Elements(ids) == {ids[0]} + Elements(ids[1..]);
    }
  }

  /** Nothing that is shed is newer than what stays. */
  lemma SurplusIsOldest(c: Config, current: map<Provider, nat>, t: State, at: Time, p: Provider, ids: seq<HostId>,
                        x: HostId, y: HostId)
    requires Lists(t, at, p, ids)
    requires x in Surplus(c, current, p, ids) && y in ids && y !in Surplus(c, current, p, ids)
    ensures x in t.rows && y in t.rows && t.rows[x].createdAt <= t.rows[y].createdAt
  {
    var surplus := Surplus(c, current, p, ids);
    var i :| 0 <= i < |surplus| && surplus[i] == x;
    var j :| 0 <= j < |ids| && ids[j] == y;
    assert forall m :: 0 <= m < |surplus| ==> surplus[m] != y && surplus[m] == ids[m];
    assert ids[i] == x;
    assert x in Elements(ids) && y in Elements(ids);
  }

  /** What the list of a provider still has is shed down to its target, and if nothing changed since the count, exactly
      to it: each provider is then at its target, or as it was below it. */
  lemma SurplusLeavesTarget(c: Config, current: map<Provider, nat>, t: State, at: Time, p: Provider, ids: seq<HostId>)
    requires Lists(t, at, p, ids)
    ensures var warm, gone := WarmOfProvider(t, p, at), Elements(Surplus(c, current, p, ids));
            && gone <= warm
            && |gone| == Least(Excess(c, current, p), |warm|)
            && |warm - gone| == |warm| - |gone|
            && (Current(current, p) == |warm| ==>
                  |warm - gone| == if p in c.targets then Least(|warm|, c.targets[p]) else 0)
  {
    SelectedIsWarm(t, at, p);
    hide WarmOfProvider, Selected;
    var surplus := Surplus(c, current, p, ids);
    var all, gone := Elements(ids), Elements(surplus);
    DistinctSize(ids);
    DistinctSize(surplus);
    assert gone <= all;
    assert |all - gone| == |all| - |gone|;
  }

  /** Whatever each provider's query found at its own moment, the list of that provider is one the protocol allows. */
  lemma SurplusIsShedList(c: Config, current: map<Provider, nat>, t: State, at: Time, p: Provider, ids: seq<HostId>)
    requires Lists(t, at, p, ids)
    ensures IsShedList(t, at, Elements(Surplus(c, current, p, ids)))
  {
    forall id | id in Elements(Surplus(c, current, p, ids))
      ensures id in t.rows && Warm(t.rows[id], at)
    {
      assert id in Elements(ids);
      SelectedIsWarm(t, at, p);
      assert id in WarmOfProvider(t, p, at);
    }
  }

  /** No host is listed twice, although each provider is listed at a moment of its own: a row keeps its provider. */
  lemma {:induction false} ShedListDistinct(c: Config, current: map<Provider, nat>, listed: map<Provider, seq<HostId>>,
                                            sweep: seq<Provider>)
    requires Distinct(sweep) && forall p :: p in sweep ==> p in listed && Distinct(listed[p])
    requires forall p, q, id :: p in sweep && q in sweep && id in listed[p] && id in listed[q] ==> p == q
    ensures Distinct(ShedList(c, current, listed, sweep))
    ensures forall id :: id in ShedList(c, current, listed, sweep) ==> exists p :: p in sweep && id in listed[p]
  {
    if sweep == [] {
    } else {
      var n := |sweep| - 1;
      ShedListDistinct(c, current, listed, sweep[..n]);
      var front, last := ShedList(c, current, listed, sweep[..n]), Surplus(c, current, sweep[n], listed[sweep[n]]);
      assert forall j :: 0 <= j < |last| ==> last[j] == listed[sweep[n]][j];
      forall i, j | 0 <= i < |front| && 0 <= j < |last|
        ensures front[i] != last[j]
      {
        assert front[i] in front;
        var p :| p in sweep[..n] && front[i] in listed[p];
        assert last[j] in listed[sweep[n]] && sweep[n] in sweep;
        assert p != sweep[n];
      }
      forall id | id in front + last
        ensures exists p :: p in sweep && id in listed[p]
      {
        if id in front {
          var p :| p in sweep[..n] && id in listed[p];
          assert p in sweep;
        } else {
          assert sweep[n] in sweep;
        }
      }
    }
  }

  lemma CountedIsWarm(s: State, at: Time, current: map<Provider, nat>)
    requires Counted(s, at, current)
    ensures forall p :: Current(current, p) == |WarmOfProvider(s, p, at)|
  {
    hide WarmOfProvider, Selected;
    forall p
      ensures Current(current, p) == |WarmOfProvider(s, p, at)|
    {
      SelectedIsWarm(s, at, p);
    }
  }

  /** The counts and the round-robin of a tick make a batch that the protocol allows, and it is the fullest fair one. */
  method PlanTick(c: Config, s: State, at: Time, current: map<Provider, nat>, shuffled: seq<Provider>)
    returns (batch: seq<Provider>)
    requires at <= s.now && Counted(s, at, current)
    requires Distinct(shuffled) && forall p :: p in shuffled <==> p in c.targets && c.targets[p] > Current(current, p)
    ensures IsPlan(c, s, at, multiset(batch))
    ensures FairBatch(shuffled, map p | p in shuffled :: Deficit(c, s, p, at), c.createsPerTick, batch)
  {
    CountedIsWarm(s, at, current);
    hide FairBatch, WarmOfProvider, Distinct, Warm, Counted;
    var deficits := map p | p in shuffled :: c.targets[p] - Current(current, p);
    assert deficits == map p | p in shuffled :: Deficit(c, s, p, at);
    batch := PlanBatch(shuffled, deficits, c.createsPerTick);
    BatchFits(c, s, at, shuffled, deficits, batch);
  }

  lemma BatchFits(c: Config, s: State, at: Time, order: seq<Provider>, deficits: map<Provider, nat>, batch: seq<Provider>)
    requires deficits == map p | p in order :: Deficit(c, s, p, at)
    requires FairBatch(order, deficits, c.createsPerTick, batch)
    ensures |multiset(batch)| <= c.createsPerTick
    ensures forall p :: p in multiset(batch) ==> multiset(batch)[p] <= Deficit(c, s, p, at)
  {
    hide Deficit, Sum;
  }

  // ---- The failure breaker ----

  function Count(flags: seq<bool>): nat {
    if flags == [] then 0 else Count(flags[..|flags| - 1]) + (if flags[|flags| - 1] then 1 else 0)
  }

  /** `MAX_CONSECUTIVE_CREATE_FAILURES` failures in a row end at position `i`. */
  predicate BreaksAt(succeeds: seq<bool>, i: nat)
    requires i < |succeeds|
  {
    i >= 2 && !succeeds[i] && !succeeds[i - 1] && !succeeds[i - 2]
  }

  /** The creates of a tick, up to the first three failures in a row. */
  method TopUp(succeeds: seq<bool>) returns (created: nat, attempted: nat)
    ensures attempted <= |succeeds| && created == Count(succeeds[..attempted])
    ensures forall i :: 0 <= i < attempted - 1 ==> !BreaksAt(succeeds, i)
    ensures attempted == |succeeds| || (attempted > 0 && BreaksAt(succeeds, attempted - 1))
  {
    created, attempted := 0, 0;
    var consecutiveFailures := 0;
    while attempted < |succeeds|
      invariant 0 <= attempted <= |succeeds| && created == Count(succeeds[..attempted])
      invariant forall i :: 0 <= i < attempted ==> !BreaksAt(succeeds, i)
      invariant 0 <= consecutiveFailures < MAX_CONSECUTIVE_CREATE_FAILURES && consecutiveFailures <= attempted
      invariant forall j :: attempted - consecutiveFailures <= j < attempted ==> !succeeds[j]
      invariant consecutiveFailures < 2 && consecutiveFailures < attempted ==>
                  succeeds[attempted - consecutiveFailures - 1]
      invariant consecutiveFailures == 2 && attempted > 2 ==> succeeds[attempted - 3]
    {
      assert succeeds[..attempted + 1][..attempted] == succeeds[..attempted];
      if succeeds[attempted] {
        created := created + 1;
        consecutiveFailures := 0;
        attempted := attempted + 1;
      } else {
        consecutiveFailures := consecutiveFailures + 1;
        attempted := attempted + 1;
        if consecutiveFailures >= MAX_CONSECUTIVE_CREATE_FAILURES {
          assert !succeeds[attempted - 2] && !succeeds[attempted - 3];
          break;
        }
      }
    }
  }
}
