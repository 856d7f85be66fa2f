/** Runs that show why the theorems ask what they ask. Each starts from a state that satisfies every invariant and
    leaves out one hypothesis of the theorem it names. */
module HostHazards {
  import opened Wrappers
  import opened HostModel
  import opened HostProtocol
  import opened HostSafety
  import opened HostClaims
  import opened HostIdempotency
  import opened HostCapacity
  import opened HostForced

  const OPEN := Config(600, 600, 14400, 86400, map[], None, map[], {}, true, map["docker" := 1], 2)

  function WarmRow(name: Name, hasDevice: bool): Row {
    Row(name, "docker", None, Active, 0, Some(1000), None, true, hasDevice, Stamp, false)
  }

  function Demand(name: Name, account: Option<Account>, expiresAt: Time): Row {
    Row(name, "docker", account, Active, 0, Some(expiresAt), None, false, false, Stamp, false)
  }

  function Plainly(key: Option<Key>, account: Option<Account>): Request {
    Request(account, key, DefaultTerm, "docker", false, None)
  }

  // ---- A shed that loses its row lock ----

  const SHED := Target(1, "docker", "one", Shed)
  const CLAIMER := Plainly(None, None)
  const SHED0 := State(10, map[1 := WarmRow("one", true)], map[], {}, {1}, {1},
                       map[0 := Deleter(LockHost(1, Shed)), 1 := Creator(CLAIMER, ClaimWarm(1, 10, 0, false))], [])
  const SHED1 := SHED0.(procs := SHED0.procs[0 := Deleter(ReleaseDevice(SHED))])
  const SHED2 := SHED1.(procs := SHED1.procs[0 := Deleter(DeleteVm(SHED, false))], rows := map[1 := WarmRow("one", false)])
  const SHED3 := SHED2.(procs := SHED2.procs[1 := Creator(CLAIMER, Returned(1, true))],
                        rows := map[1 := ClaimedRow(OPEN, CLAIMER, WarmRow("one", false), 10, 0, 10)])
  const SHED4 := SHED3.(procs := SHED3.procs[0 := Deleter(DeleteRow(SHED, false))])
  const SHED5 := SHED4.(procs := SHED4.procs[0 := Deleter(Done(true))], rows := map[])

  lemma ShedLocks()
    ensures StepsTo(OPEN, SHED0, Go(0, Plain), SHED1)
  {
    hide Advance;
  }

  lemma ShedUnlocks()
    ensures StepsTo(OPEN, SHED1, Go(0, Plain), SHED2)
  {
    hide Advance;
  }

  lemma ShedIsOvertaken()
    ensures StepsTo(OPEN, SHED2, Go(1, Plain), SHED3)
  {
    hide Remove;
  }

  lemma ShedDeletesVm()
    ensures StepsTo(OPEN, SHED3, Go(0, Plain), SHED4)
  {
    hide Advance;
  }

  lemma ShedDeletesRow()
    ensures StepsTo(OPEN, SHED4, Go(0, Plain), SHED5)
  {
    hide Advance;
  }

  lemma ShedStartsSafe()
    ensures Safe(OPEN, SHED0) && HoldsOk(SHED0)
  {
    hide RowsOk, ProcsOk, NamesUnique, KeysOk, LocksExclusive, DraftsDistinct, HoldsOk;
    ShedProcsStartOk();
    ShedRowsStartOk();
    ShedLocksStartOk();
  }

  lemma ShedRowsStartOk()
    ensures RowsOk(OPEN, SHED0) && NamesUnique(SHED0) && KeysOk(SHED0)
  {
  }

  lemma ShedLocksStartOk()
    ensures LocksExclusive(SHED0) && DraftsDistinct(SHED0) && HoldsOk(SHED0)
  {
  }

  lemma ShedProcsStartOk()
    ensures ProcsOk(OPEN, SHED0)
  {
    assert ProcOk(OPEN, SHED0, SHED0.procs[0]);
    assert ProcOk(OPEN, SHED0, SHED0.procs[1]);
    hide ProcOk;
  }

  lemma ShedStartsHeld()
    ensures HoldsDistinct(SHED0) && RecordsOk(SHED0) && PoolOnly(SHED0)
  {
  }

  /** delete_host commits the cleared device before it deletes the VM, and with that gives up the row lock: a claim that
      lands there loses its host to the shed. GuardedDelete asks for a row without a device. */
  lemma ShedTakesClaimedHost()
    ensures IsRun(OPEN, [SHED0, SHED1, SHED2, SHED3, SHED4, SHED5],
                  [Go(0, Plain), Go(0, Plain), Go(1, Plain), Go(0, Plain), Go(0, Plain)])
    ensures Claims(OPEN, SHED0)
    ensures SHED0.procs[0] == Deleter(LockHost(1, Shed)) && SHED0.rows[1].hasDevice && SHED0.rows[1].claimedAt.None?
    ensures SHED4.rows[1].claimedAt.Some? && SHED4.procs[1] == Creator(CLAIMER, Returned(1, true))
    ensures 1 !in SHED5.rows
  {
    ShedStartsSafe();
    ShedStartsHeld();
    ShedLocks();
    ShedUnlocks();
    ShedIsOvertaken();
    ShedDeletesVm();
    ShedDeletesRow();
    hide StepsTo, Safe, HoldsOk, HoldsDistinct, RecordsOk, PoolOnly;
    FiveSteps(OPEN, SHED0, Go(0, Plain), SHED1, Go(0, Plain), SHED2, Go(1, Plain), SHED3, Go(0, Plain), SHED4,
              Go(0, Plain), SHED5);
  }

  // ---- A stale-key delete that is late ----

  const STALE := Plainly(Some("k"), Some("ann"))
  const HELD := ClaimedRow(OPEN, STALE, WarmRow("one", false), 5, 0, 5)
  const STALE0 := State(10, map[1 := HELD, 2 := WarmRow("two", false)], map["k" := KeyRecord(1, 900)], {}, {1, 2}, {1, 2},
                        map[0 := Creator(STALE, DropStaleKey(None)), 1 := Creator(STALE, Returned(1, true))], [])
  const STALE1 := STALE0.(keys := map[], procs := STALE0.procs[0 := Creator(STALE, CountAccount)])
  const STALE2 := STALE1.(procs := STALE1.procs[0 := Creator(STALE, PickWarm(false))])
  const STALE3 := STALE2.(procs := STALE2.procs[0 := Creator(STALE, ClaimWarm(2, 10, 0, false))])
  const STALE4 := STALE3.(procs := STALE3.procs[0 := Creator(STALE, RecordKey(2))],
                          rows := map[1 := HELD, 2 := ClaimedRow(OPEN, STALE, WarmRow("two", false), 10, 0, 10)])
  const STALE5 := STALE4.(procs := STALE4.procs[0 := Creator(STALE, Returned(2, true))],
                          keys := map["k" := KeyRecord(2, 86410)])

  lemma StaleDrops()
    ensures StepsTo(OPEN, STALE0, Go(0, Plain), STALE1)
  {
    hide Remove, Build;
  }

  lemma StaleCounts()
    ensures StepsTo(OPEN, STALE1, Go(0, Plain), STALE2)
  {
    hide Remove, Build;
  }

  lemma StalePicks()
    ensures StepsTo(OPEN, STALE2, Go(0, Candidate(Some(2))), STALE3)
  {
    hide Remove, Build;
  }

  lemma StaleClaims()
    ensures StepsTo(OPEN, STALE3, Go(0, Plain), STALE4)
  {
    hide Remove, Build;
  }

  lemma StaleRecords()
    ensures StepsTo(OPEN, STALE4, Go(0, Plain), STALE5)
  {
    hide Remove, Build;
  }

  lemma StaleStartsSafe()
    ensures Safe(OPEN, STALE0) && HoldsOk(STALE0)
  {
    hide RowsOk, ProcsOk, NamesUnique, KeysOk, LocksExclusive, DraftsDistinct, HoldsOk;
    StaleProcsStartOk();
    StaleRowsStartOk();
    StaleLocksStartOk();
  }

  lemma StaleRowsStartOk()
    ensures RowsOk(OPEN, STALE0) && NamesUnique(STALE0) && KeysOk(STALE0)
  {
  }

  lemma StaleLocksStartOk()
    ensures LocksExclusive(STALE0) && DraftsDistinct(STALE0) && HoldsOk(STALE0)
  {
    StaleHoldsStartOk();
    hide HoldsOk;
  }

  lemma StaleHoldsStartOk()
    ensures HoldsOk(STALE0)
  {
    hide LocksExclusive, DraftsDistinct;
  }

  lemma StaleProcsStartOk()
    ensures ProcsOk(OPEN, STALE0)
  {
    assert ProcOk(OPEN, STALE0, STALE0.procs[0]);
    assert ProcOk(OPEN, STALE0, STALE0.procs[1]);
    hide ProcOk;
  }

  lemma StaleStartsHeld()
    ensures HoldsDistinct(STALE0) && RecordsOk(STALE0) && PoolOnly(STALE0)
  {
  }

  /** The delete of a stale key matches on the key only. One that was decided before another request recorded its host
      drops the fresh record, and two requests with one key and account answer with two hosts, although no record
      expires or loses its host. IdempotencyConverges asks that no such delete is under way at the start. */
  lemma StaleDeleteDiverges()
    ensures IsRun(OPEN, [STALE0, STALE1, STALE2, STALE3, STALE4, STALE5],
                  [Go(0, Plain), Go(0, Plain), Go(0, Candidate(Some(2))), Go(0, Plain), Go(0, Plain)])
    ensures Claims(OPEN, STALE0)
    ensures RecordStays([STALE0, STALE1, STALE2, STALE3, STALE4, STALE5], "k")
    ensures STALE5.procs[0].req == STALE5.procs[1].req && STALE5.procs[0].req.key == Some("k")
    ensures STALE5.procs[0].pc == Returned(2, true) && STALE5.procs[1].pc == Returned(1, true)
  {
    StaleStartsSafe();
    StaleStartsHeld();
    StaleDrops();
    StaleCounts();
    StalePicks();
    StaleClaims();
    StaleRecords();
    hide StepsTo, Safe, HoldsOk, HoldsDistinct, RecordsOk, PoolOnly;
    FiveSteps(OPEN, STALE0, Go(0, Plain), STALE1, Go(0, Plain), STALE2, Go(0, Candidate(Some(2))), STALE3,
              Go(0, Plain), STALE4, Go(0, Plain), STALE5);
    hide IsRun;
  }

  // ---- A renewal of a lapsed lease ----

  const TIGHT := OPEN.(hostLimits := map["docker" := 1], accountLimit := Some(1))
  const LAPSED := State(10, map[1 := Demand("one", None, 5), 2 := Demand("two", None, 50)], map[], {}, {1, 2}, {1, 2},
                        map[], [])
  const RENEWED := LAPSED.(rows := LAPSED.rows[1 := Demand("one", None, 90).(writer := Renewal)])

  /** renew_host accepts a row whose lease has passed, so a renewal can lift a provider over its limit.
      ProviderCapacity asks that no step revives a lapsed row. */
  lemma RenewalExceedsLimit()
    ensures StepsTo(TIGHT, LAPSED, Renew(1, Some(90)), RENEWED)
    ensures Safe(TIGHT, LAPSED) && WithinProvider(TIGHT, LAPSED, "docker")
    ensures |LiveOfProvider(RENEWED, "docker")| == 2 && TIGHT.hostLimits["docker"] == 1
  {
    assert LiveOfProvider(LAPSED, "docker") == {2};
    assert LiveOfProvider(RENEWED, "docker") == {1, 2};
    hide Advance, Remove;
  }

  // ---- A lost claim ----

  const CAPPED := OPEN.(accountLimit := Some(1))
  const ANN := Plainly(None, Some("ann"))
  const BOB := Plainly(None, Some("bob"))
  const ONE := Draft(11, "eleven", 10, 610)
  const TWO := Draft(12, "twelve", 10, 610)
  const TAKEN := ClaimedRow(OPEN, BOB, WarmRow("one", false), 5, 0, 5)

  function LostState(used: set<HostId>, past: set<HostId>, rows: map<HostId, Row>, p: Pc, q: Pc): State {
    State(10, rows, map[], {}, used, past, map[0 := Creator(ANN, p), 1 := Creator(ANN, q)], [])
  }

  const LOST0 := LostState({1}, {1}, map[1 := TAKEN], ClaimWarm(1, 5, 0, true), CountAccount)
  const LOST1 := LostState({1}, {1}, map[1 := TAKEN], MintHost(false), CountAccount)
  const LOST2 := LostState({1, 11}, {1}, map[1 := TAKEN], CountProvider(ONE, false), CountAccount)
  const LOST3 := LostState({1, 11}, {1}, map[1 := TAKEN], InsertRow(ONE, false, false), CountAccount)
  const LOST4 := LostState({1, 11}, {1}, map[1 := TAKEN], InsertRow(ONE, false, false), PickWarm(true))
  const LOST5 := LostState({1, 11}, {1, 11}, map[1 := TAKEN, 11 := NewRow(ANN, ONE)],
                           Provision(ONE, CommitNetwork), PickWarm(true))
  const LOST6 := LostState({1, 11}, {1, 11}, map[1 := TAKEN, 11 := NewRow(ANN, ONE)],
                           Provision(ONE, CommitNetwork), MintHost(true))
  const LOST7 := LostState({1, 11, 12}, {1, 11}, map[1 := TAKEN, 11 := NewRow(ANN, ONE)],
                           Provision(ONE, CommitNetwork), CountProvider(TWO, true))
  const LOST8 := LostState({1, 11, 12}, {1, 11}, map[1 := TAKEN, 11 := NewRow(ANN, ONE)],
                           Provision(ONE, CommitNetwork), InsertRow(TWO, true, false))
  const LOST9 := LostState({1, 11, 12}, {1, 11, 12},
                           map[1 := TAKEN, 11 := NewRow(ANN, ONE), 12 := NewRow(ANN, TWO)],
                           Provision(ONE, CommitNetwork), Provision(TWO, CommitNetwork))

  lemma LostClaimUnlocks()
    ensures StepsTo(CAPPED, LOST0, Go(0, Plain), LOST1)
  {
    hide Remove, Build;
  }

  lemma LostClaimMints()
    ensures StepsTo(CAPPED, LOST1, Go(0, Fresh(11, "eleven")), LOST2)
  {
    hide Remove, Build;
  }

  lemma LostClaimIsUnlimited()
    ensures StepsTo(CAPPED, LOST2, Go(0, Plain), LOST3)
  {
    hide Remove, Build;
  }

  lemma RivalCounts()
    ensures StepsTo(CAPPED, LOST3, Go(1, Plain), LOST4)
  {
    hide Remove, Build, IsCandidate, LeaseEnd, RowFreeFor;
    assert LiveOfAccount(LOST3, "ann") == {};
    hide LiveOfAccount, Live;
  }

  lemma LostClaimInserts()
    ensures StepsTo(CAPPED, LOST4, Go(0, Plain), LOST5)
  {
    hide Remove, Build;
  }

  lemma RivalFindsNoneWarm()
    ensures StepsTo(CAPPED, LOST5, Go(1, Candidate(None)), LOST6)
  {
    hide Remove, Build;
  }

  lemma RivalMints()
    ensures StepsTo(CAPPED, LOST6, Go(1, Fresh(12, "twelve")), LOST7)
  {
    hide Remove, Build;
  }

  lemma RivalIsUnlimited()
    ensures StepsTo(CAPPED, LOST7, Go(1, Plain), LOST8)
  {
    hide Remove, Build;
  }

  lemma RivalInserts()
    ensures StepsTo(CAPPED, LOST8, Go(1, Plain), LOST9)
  {
    hide Remove, Build;
  }

  /** The commit of a claim runs even when the claim lost, and ends the transaction that holds the account lock: the
      insert that follows is not counted by a rival, and the account ends over its limit. AccountCapacity asks that no
      claim of the account loses its race. */
  lemma LostClaimExceedsLimit()
    ensures IsRun(CAPPED, [LOST0, LOST1, LOST2, LOST3, LOST4, LOST5],
                  [Go(0, Plain), Go(0, Fresh(11, "eleven")), Go(0, Plain), Go(1, Plain), Go(0, Plain)])
    ensures IsRun(CAPPED, [LOST5, LOST6, LOST7, LOST8, LOST9],
                  [Go(1, Candidate(None)), Go(1, Fresh(12, "twelve")), Go(1, Plain), Go(1, Plain)])
    ensures Safe(CAPPED, LOST0) && WithinAccount(CAPPED, LOST0, "ann")
    ensures |LiveOfAccount(LOST9, "ann")| == 2 && CAPPED.accountLimit == Some(1)
  {
    hide StepsTo, Safe, WithinAccount, LiveOfAccount, Transition, Commit;
    LostClaimUnlocks();
    LostClaimMints();
    LostClaimIsUnlimited();
    RivalCounts();
    LostClaimInserts();
    RivalFindsNoneWarm();
    RivalMints();
    RivalIsUnlimited();
    RivalInserts();
    LostClaimStartsWithin();
    BothAreLive();
    FiveSteps(CAPPED, LOST0, Go(0, Plain), LOST1, Go(0, Fresh(11, "eleven")), LOST2, Go(0, Plain), LOST3,
              Go(1, Plain), LOST4, Go(0, Plain), LOST5);
    FourSteps(CAPPED, LOST5, Go(1, Candidate(None)), LOST6, Go(1, Fresh(12, "twelve")), LOST7, Go(1, Plain), LOST8,
              Go(1, Plain), LOST9);
  }

  lemma LostClaimStartsWithin()
    ensures Safe(CAPPED, LOST0) && WithinAccount(CAPPED, LOST0, "ann")
  {
    assert LiveOfAccount(LOST0, "ann") == {};
    assert RowsOk(CAPPED, LOST0) && NamesUnique(LOST0) && KeysOk(LOST0);
    assert LocksExclusive(LOST0) && DraftsDistinct(LOST0) && WithinAccount(CAPPED, LOST0, "ann");
    LostProcsStartOk();
    hide RowsOk, ProcsOk, NamesUnique, KeysOk, LocksExclusive, DraftsDistinct, WithinAccount;
  }

  lemma LostProcsStartOk()
    ensures ProcsOk(CAPPED, LOST0)
  {
    assert ProcOk(CAPPED, LOST0, LOST0.procs[0]);
    assert ProcOk(CAPPED, LOST0, LOST0.procs[1]);
    hide ProcOk;
  }

  lemma BothAreLive()
    ensures |LiveOfAccount(LOST9, "ann")| == 2
  {
    assert LiveOfAccount(LOST9, "ann") == {11, 12};
  }
}
