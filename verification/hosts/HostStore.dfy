/**
 The service over the shared tables, statement by statement. Each method is the code between two points where other
 processes may run: one transaction, or one provider call with what the service stores before and after it. A method
 whose statement waits for a lock is called when the lock is granted: that is what `Enabled` asks. Each contract says what
 the method leaves in the tables, and which step of the protocol it is. HostRequests composes the methods into whole
 requests among others, and there every theorem about runs applies.
 */
module HostStore {
  import opened Wrappers
  import opened HostModel
  import opened HostProtocol
  import opened HostSafety
  import opened HostTeardown

  datatype Renewal = Renewed(row: Row) | NotFound | UnclaimedPoolHost | WrongStatus

  datatype Deletion = Gone | Spared | Missing | StillProvisioning | TeardownFailed

  class HostService {
    const c: Config
    var now: Time
    var rows: map<HostId, Row>
    var keys: map<Key, KeyRecord>
    var vms: set<Vm>
    var used: set<HostId>
    var past: set<HostId>
    var procs: map<Pid, Proc>
    var ticks: seq<Tick>

    ghost var states: seq<State>        // what the tables have been
    ghost var actions: seq<Action>      // the steps between

    constructor (c: Config, now: Time, slots: nat)
      ensures this.c == c && Start(View()) && states == [View()] && actions == []
      ensures rows == map[] && procs == map[] && |ticks| == slots
    {
      this.c, this.now := c, now;
      rows, keys, vms, used, past, procs, ticks := map[], map[], {}, {}, {}, map[], seq(slots, _ => Idle);
      states, actions := [State(now, map[], map[], {}, {}, {}, map[], seq(slots, _ => Idle))], [];
    }

    function View(): State
      reads this`now, this`rows, this`keys, this`vms, this`used, this`past, this`procs, this`ticks
    {
      State(now, rows, keys, vms, used, past, procs, ticks)
    }

    predicate At(p: Pid)
      reads this`procs
    {
      p in procs && procs[p].Creator?
    }

    predicate Deletes(p: Pid)
      reads this`procs
    {
      p in procs && procs[p].Deleter?
    }

    /** The method is the step `Go(p, choice)` of the protocol, and moves only its own process to `next`. */
    twostate predicate Stepped(p: Pid, choice: Choice, next: Proc)
      reads this
    {
      && Enabled(c, old(View()), Go(p, choice)) && View() == Next(c, old(View()), Go(p, choice))
      && procs == old(procs)[p := next]
    }

    // ---- get_or_create_host: the key ----

    /** _lookup_idempotency_key: the select of the record. */
    method FindRecord(p: Pid) returns (record: Option<KeyRecord>)
      requires At(p) && procs[p].pc.LookupKey? && procs[p].req.key.Some?
      modifies this`procs
      ensures record == if old(procs[p].req.key.value) in keys then Some(keys[old(procs[p].req.key.value)]) else None
      ensures var (req, lost) := (old(procs[p].req), old(procs[p].pc.lost));
              Stepped(p, Plain, Creator(req, if record.Some? then ReadKeyHost(record.value, lost)
                                             else if lost.None? then CountAccount else Failed))
    {
      var req, lost := procs[p].req, procs[p].pc.lost;
      if req.key.value in keys {
        record := Some(keys[req.key.value]);
        procs := procs[p := Creator(req, ReadKeyHost(record.value, lost))];
      } else {
        record := None;
        procs := procs[p := Creator(req, if lost.None? then CountAccount else Failed)];
      }
    }

    /** _lookup_idempotency_key: an unexpired record with a host answers, or refuses another account. */
    method FindRecordedHost(p: Pid) returns (found: Option<HostId>)
      requires At(p) && procs[p].pc.ReadKeyHost?
      modifies this`procs
      ensures var (req, record) := (old(procs[p].req), old(procs[p].pc.record));
              var inForce := record.expiresAt > now && record.host in rows;
              && (found.Some? <==> inForce && rows[record.host].account == req.account)
              && (found.Some? ==> found.value == record.host)
              && Stepped(p, Plain, Creator(req, if found.Some? then Returned(record.host, false)
                                                else if inForce then Failed else DropStaleKey(old(procs[p].pc.lost))))
    {
      var req, record, lost := procs[p].req, procs[p].pc.record, procs[p].pc.lost;
      found := None;
      if record.expiresAt > now && record.host in rows {
        if rows[record.host].account == req.account {
          found := Some(record.host);
          procs := procs[p := Creator(req, Returned(record.host, false))];
        } else {
          procs := procs[p := Creator(req, Failed)];
        }
      } else {
        procs := procs[p := Creator(req, DropStaleKey(lost))];
      }
    }

    /** _lookup_idempotency_key: the stale record goes. It is matched by its key alone, so whatever record the key has by
        now goes with it, and no other. */
    method CollectStaleKey(p: Pid)
      requires At(p) && procs[p].pc.DropStaleKey? && procs[p].req.key.Some?
      modifies this`procs, this`keys
      ensures old(procs[p].req.key.value) !in keys
      ensures forall k :: k != old(procs[p].req.key.value) ==>
                (k in keys <==> k in old(keys)) && (k in keys ==> keys[k] == old(keys)[k])
      ensures Stepped(p, Plain, Creator(old(procs[p].req), if old(procs[p].pc.lost).None? then CountAccount else Failed))
    {
      var req, lost := procs[p].req, procs[p].pc.lost;
      keys := keys - {req.key.value};
      procs := procs[p := Creator(req, if lost.None? then CountAccount else Failed)];
    }

    // ---- get_or_create_host: the limit of the account and the warm pool ----

    /** get_or_create_host: the count of the account, under its advisory lock. */
    method CheckAccountLimit(p: Pid) returns (admitted: bool)
      requires At(p) && procs[p].pc.CountAccount? && Enabled(c, View(), Go(p, Plain))
      modifies this`procs
      ensures var req := old(procs[p].req);
              var limited := c.accountLimit.Some? && req.tick.None? && req.account.Some? && req.account.value != "admin";
              var live := set id | id in rows && rows[id].account == req.account && rows[id].status != Error
                                   && (rows[id].expiresAt.None? || rows[id].expiresAt.value > now);
              && (admitted <==> (limited ==> |live| < c.accountLimit.value))
              && Stepped(p, Plain, Creator(req, if !admitted then Failed
                                                else if req.tick.None? && !req.customized && req.provider in c.targets
                                                then PickWarm(limited) else MintHost(limited)))
    {
      AdmitForm(c, View(), p, procs[p].req);
      hide Transition, Commit, LiveOfAccount, Live;
      var req := procs[p].req;
      admitted := true;
      var locked := false;
      if c.accountLimit.Some? && req.tick.None? && req.account.Some? && req.account.value != ADMIN {
        locked := true;
        var live := set id | id in rows && rows[id].account == req.account && rows[id].status != Error
                             && (rows[id].expiresAt.None? || rows[id].expiresAt.value > now);
        admitted := |live| < c.accountLimit.value;
        LiveOfAccountIs(View(), req.account.value);
        assert live == LiveOfAccount(View(), req.account.value);
      }
      var warm := req.tick.None? && !req.customized && req.provider in c.targets;
      procs := procs[p := Creator(req, if !admitted then Failed else if warm then PickWarm(locked) else MintHost(locked))];
    }

    /** A warm host that the request may have: unclaimed, active, within its lease, and young enough for the end asked for. */
    predicate Fitting(req: Request, id: HostId)
      requires id in rows
      reads this`rows, this`now
    {
      var row := rows[id];
      && row.provider == req.provider && row.poolMember && row.claimedAt.None? && row.status == Active
      && (row.expiresAt.None? || now < row.expiresAt.value)
      && (req.provider in c.maxLifetime && req.lease.Until? ==> req.lease.end <= row.createdAt + c.maxLifetime[req.provider])
    }

    /** _try_claim_pool_host: the select. `picked` is what the ordered query answers. */
    method SelectCandidate(p: Pid, picked: Option<HostId>)
      requires At(p) && procs[p].pc.PickWarm? && IsOldestCandidate(c, View(), procs[p].req, picked)
      modifies this`procs
      ensures var (req, locked) := (old(procs[p].req), old(procs[p].pc.locked));
              Stepped(p, Candidate(picked),
                      Creator(req, if picked.None? then MintHost(locked)
                                   else ClaimWarm(picked.value, now, rows[picked.value].createdAt, locked)))
      ensures picked.Some? ==> picked.value in rows && Fitting(old(procs[p].req), picked.value)
      ensures forall id :: id in rows && Fitting(old(procs[p].req), id) ==>
                picked.Some? && rows[picked.value].createdAt <= rows[id].createdAt
    {
      var req, locked := procs[p].req, procs[p].pc.locked;
      procs := procs[p := Creator(req, if picked.None? then MintHost(locked)
                                       else ClaimWarm(picked.value, now, rows[picked.value].createdAt, locked))];
    }

    /** _try_claim_pool_host: the conditional update. Its commit runs whether or not a row matched. */
    method ClaimCandidate(p: Pid) returns (claimed: Option<HostId>)
      requires At(p) && procs[p].pc.ClaimWarm? && Enabled(c, View(), Go(p, Plain))
      modifies this`procs, this`rows, this`past
      ensures var (req, pc) := (old(procs[p].req), old(procs[p].pc));
              && (claimed.Some? <==> pc.id in old(rows) && old(rows)[pc.id].claimedAt.None?)
              && (claimed.None? ==> rows == old(rows))
              && (claimed.Some? ==>
                    && claimed.value == pc.id && pc.id in rows && rows == old(rows)[pc.id := rows[pc.id]]
                    && EndsAsRequested(c, req.provider, pc.createdAt, req.lease, now, rows[pc.id].expiresAt)
                    && rows[pc.id] == old(rows)[pc.id].(account := req.account, claimedAt := Some(pc.at),
                                                        expiresAt := rows[pc.id].expiresAt, writer := Claim,
                                                        permanent := req.lease.Permanent?))
              && Stepped(p, Plain, Creator(req, if claimed.Some? then Settle(req, pc.id) else MintHost(false)))
    {
      hide Build, ReleaseLoser, Remove, LeaseEnd, EndsAsRequested;
      var req, pc := procs[p].req, procs[p].pc;
      LeaseEndIsAsRequested(c, req.provider, pc.createdAt, req.lease, now);
      if pc.id in rows && rows[pc.id].claimedAt.None? {
        var end := match req.lease case Permanent => None case Until(e) => Some(e) case DefaultTerm => Some(now + c.leaseTtl);
        rows := rows[pc.id := rows[pc.id].(
          account := req.account, claimedAt := Some(pc.at),
          expiresAt := LeaseEnd(c, req.provider, pc.createdAt, end),
          writer := Claim, permanent := req.lease.Permanent?)];
        past := past + {pc.id};
        claimed := Some(pc.id);
        procs := procs[p := Creator(req, if req.key.Some? then RecordKey(pc.id) else Returned(pc.id, true))];
      } else {
        claimed := None;
        procs := procs[p := Creator(req, MintHost(false))];
      }
    }

    // ---- create_host ----

    /** create_host: a fresh uuid, and the safety term. `valid` says whether the request fits the provider. */
    method MintDraft(p: Pid, id: HostId, name: Name, valid: bool)
      requires At(p) && procs[p].pc.MintHost? && (valid ==> id !in used)
      modifies this`procs, this`used
      ensures used == if valid then old(used) + {id} else old(used)
      ensures var (req, locked) := (old(procs[p].req), old(procs[p].pc.locked));
              var initial := if req.lease.Until? && req.lease.end > now + c.grace then req.lease.end else now + c.grace;
              Stepped(p, if valid then Fresh(id, name) else Fails,
                      Creator(req, if valid then CountProvider(Draft(id, name, now, initial), locked) else Failed))
    {
      hide Build, ReleaseLoser, Remove;
      var req, locked := procs[p].req, procs[p].pc.locked;
      if valid {
        var safety := now + c.grace;
        var initial := if req.lease.Until? then Max(req.lease.end, safety) else safety;
        used := used + {id};
        procs := procs[p := Creator(req, CountProvider(Draft(id, name, now, initial), locked))];
      } else {
        procs := procs[p := Creator(req, Failed)];
      }
    }

    /** create_host: the count of the provider, under its advisory lock. */
    method CheckProviderLimit(p: Pid) returns (admitted: bool)
      requires At(p) && procs[p].pc.CountProvider? && Enabled(c, View(), Go(p, Plain))
      modifies this`procs
      ensures var req := old(procs[p].req);
              var live := set id | id in rows && rows[id].provider == req.provider && rows[id].status != Error
                                   && (rows[id].expiresAt.None? || rows[id].expiresAt.value > now);
              && (admitted <==> (req.provider in c.hostLimits ==> |live| < c.hostLimits[req.provider]))
              && Stepped(p, Plain, Creator(req, if admitted then InsertRow(old(procs[p].pc.draft), old(procs[p].pc.locked),
                                                                           req.provider in c.hostLimits) else Failed))
    {
      CountForm(c, View(), p, procs[p].req, procs[p].pc.draft, procs[p].pc.locked);
      LiveOfProviderIs(View(), procs[p].req.provider);
      hide Transition, Commit, LiveOfProvider, Live;
      var req, d, locked := procs[p].req, procs[p].pc.draft, procs[p].pc.locked;
      admitted := true;
      if req.provider in c.hostLimits {
        var live := set id | id in rows && rows[id].provider == req.provider && rows[id].status != Error
                             && (rows[id].expiresAt.None? || rows[id].expiresAt.value > now);
        admitted := |live| < c.hostLimits[req.provider];
        assert live == LiveOfProvider(View(), req.provider);
      }
      procs := procs[p := Creator(req, if admitted then InsertRow(d, locked, req.provider in c.hostLimits) else Failed)];
    }

    /** create_host: the insert of a caller's host, and the commit that ends the transaction of both counts. */
    method InsertHost(p: Pid) returns (inserted: bool)
      requires At(p) && procs[p].pc.InsertRow? && procs[p].req.tick.None?
      modifies this`procs, this`rows, this`past
      ensures var (req, d) := (old(procs[p].req), old(procs[p].pc.draft));
              && (inserted <==> forall id :: id in old(rows) ==> old(rows)[id].name != d.name)
              && (!inserted ==> rows == old(rows))
              && (inserted ==>
                    && d.id in rows && rows == old(rows)[d.id := rows[d.id]]
                    && rows[d.id] == Row(d.name, req.provider, req.account, Provisioning, d.createdAt, Some(d.initial), None,
                                         false, false, Initial, req.lease.Permanent?))
              && Stepped(p, Plain, Creator(req, if inserted then Provision(d, CommitNetwork) else Failed))
    {
      hide Build, ReleaseLoser, Remove;
      var req, d := procs[p].req, procs[p].pc.draft;
      if exists id :: id in rows && rows[id].name == d.name {
        inserted := false;
        procs := procs[p := Creator(req, Failed)];
      } else {
        inserted := true;
        rows := rows[d.id := Row(d.name, req.provider, req.account, Provisioning, d.createdAt, Some(d.initial), None,
                                 false, false, Initial, req.lease.Permanent?)];
        past := past + {d.id};
        procs := procs[p := Creator(req, Provision(d, CommitNetwork))];
      }
    }

    // ---- provision ----

    /** The status that a commit of provision() writes, and the phase after it. */
    function StatusOf(phase: Phase, provider: Provider): (next: Option<(Status, Phase)>) {
      match phase
      case CommitNetwork => Some((CreatingNetwork, CommitVm))
      case CommitVm => if provider in c.tailnet && !c.tailscale then None else Some((CreatingVm, CallProvider))
      case CommitBootstrapping => Some((Bootstrapping, if provider in c.tailnet then WaitDevice else CommitActive))
      case CommitActive => Some((Active, StampLease))
      case _ => None
    }

    /** provision: one commit that moves the status on. It dies when the row is gone. */
    method CommitStatus(p: Pid, status: Status, next: Phase) returns (alive: bool)
      requires At(p) && procs[p].pc.Provision? && Enabled(c, View(), Go(p, Plain))
      requires StatusOf(procs[p].pc.phase, procs[p].req.provider) == Some((status, next))
      modifies this`procs, this`rows, this`past
      ensures var (req, d) := (old(procs[p].req), old(procs[p].pc.draft));
              && (alive <==> d.id in old(rows))
              && rows == (if alive then old(rows)[d.id := old(rows)[d.id].(status := status)] else old(rows))
              && (next.CallProvider? && req.provider in c.tailnet ==> c.tailscale)
              && (status == Bootstrapping ==> (next.WaitDevice? <==> req.provider in c.tailnet))
              && Stepped(p, Plain, Creator(req, if alive then Provision(d, next) else Failed))
    {
      CommitForm(c, View(), p, procs[p].req, procs[p].pc.draft, procs[p].pc.phase,
                 RowOr(View(), procs[p].pc.draft.id, NewRow(procs[p].req, procs[p].pc.draft)).(status := status),
                 Provision(procs[p].pc.draft, next));
      hide Transition, Commit;
      var req, d := procs[p].req, procs[p].pc.draft;
      alive := d.id in rows;
      if alive {
        rows := rows[d.id := rows[d.id].(status := status)];
        past := past + {d.id};
        procs := procs[p := Creator(req, Provision(d, next))];
      } else {
        procs := procs[p := Creator(req, Failed)];
      }
    }

    /** provision: credentials, secrets, the device or the key scan fail. What was read of the clock is stored. */
    method NoteFailure(p: Pid)
      requires At(p) && procs[p].pc.Provision?
      requires procs[p].pc.phase.CommitVm? || procs[p].pc.phase.WaitDevice? || procs[p].pc.phase.CommitActive?
      modifies this`procs
      ensures Stepped(p, Fails, Creator(old(procs[p].req), Provision(old(procs[p].pc.draft), MarkFailed(now))))
    {
      hide FindKey, FindKeyHost, CollectKey, CheckAccount, SelectWarm, UpdateWarm, DraftHost, CheckProvider, AddHost, AddKey,
           LoadLoser, ReleaseLoser, Remove;
      procs := procs[p := Creator(procs[p].req, Provision(procs[p].pc.draft, MarkFailed(now)))];
    }

    /** provision: create_vm. A call that fails may leave a VM behind. */
    method CreateVm(p: Pid, outcome: Choice)
      requires At(p) && procs[p].pc.Provision? && procs[p].pc.phase.CallProvider?
      requires outcome.Plain? || outcome.Fails? || outcome.FailsWithVm?
      modifies this`procs, this`vms
      ensures var (req, d) := (old(procs[p].req), old(procs[p].pc.draft));
              && vms == (if outcome.Fails? then old(vms) else old(vms) + {Vm(req.provider, d.name)})
              && Stepped(p, outcome, Creator(req, Provision(d, if outcome.Plain? then CommitBootstrapping else MarkFailed(now))))
    {
      hide FindKey, FindKeyHost, CollectKey, CheckAccount, SelectWarm, UpdateWarm, DraftHost, CheckProvider, AddHost, AddKey,
           LoadLoser, ReleaseLoser, Remove;
      var req, d := procs[p].req, procs[p].pc.draft;
      if !outcome.Fails? {
        vms := vms + {Vm(req.provider, d.name)};
      }
      procs := procs[p := Creator(req, Provision(d, if outcome.Plain? then CommitBootstrapping else MarkFailed(now)))];
    }

    /** provision: the device is found, and its id is stored. */
    method StoreDevice(p: Pid) returns (alive: bool)
      requires At(p) && procs[p].pc.Provision? && procs[p].pc.phase.WaitDevice? && Enabled(c, View(), Go(p, Plain))
      modifies this`procs, this`rows, this`past
      ensures var (req, d) := (old(procs[p].req), old(procs[p].pc.draft));
              && (alive <==> d.id in old(rows))
              && rows == (if alive then old(rows)[d.id := old(rows)[d.id].(hasDevice := true)] else old(rows))
              && Stepped(p, Plain, Creator(req, if alive then Provision(d, CommitActive) else Failed))
    {
      CommitForm(c, View(), p, procs[p].req, procs[p].pc.draft, procs[p].pc.phase,
                 RowOr(View(), procs[p].pc.draft.id, NewRow(procs[p].req, procs[p].pc.draft)).(hasDevice := true),
                 Provision(procs[p].pc.draft, CommitActive));
      hide Transition, Commit;
      var req, d := procs[p].req, procs[p].pc.draft;
      alive := d.id in rows;
      if alive {
        rows := rows[d.id := rows[d.id].(hasDevice := true)];
        past := past + {d.id};
        procs := procs[p := Creator(req, Provision(d, CommitActive))];
      } else {
        procs := procs[p := Creator(req, Failed)];
      }
    }

    /** mark_failed: the errored row expires at the time that was noted, so the janitor owns the teardown. */
    method FailHost(p: Pid)
      requires At(p) && procs[p].pc.Provision? && procs[p].pc.phase.MarkFailed? && Enabled(c, View(), Go(p, Plain))
      modifies this`procs, this`rows, this`past
      ensures var (id, at) := (old(procs[p].pc.draft.id), old(procs[p].pc.phase.failedAt));
              && rows.Keys == old(rows).Keys
              && (forall other :: other in rows && other != id ==> rows[other] == old(rows)[other])
              && (id in rows ==>
                    && rows[id] == old(rows)[id].(status := Error, expiresAt := Some(at), writer := Failure)
                    && (at <= now ==> !Unexpired(rows[id], now) && !Live(rows[id], now)))
      ensures Stepped(p, Plain, Creator(old(procs[p].req), Failed))
    {
      CommitForm(c, View(), p, procs[p].req, procs[p].pc.draft, procs[p].pc.phase,
                 RowOr(View(), procs[p].pc.draft.id, NewRow(procs[p].req, procs[p].pc.draft)).(
                   status := Error, expiresAt := Some(procs[p].pc.phase.failedAt), writer := Failure),
                 Failed);
      hide Transition, Commit;
      var req, d, at := procs[p].req, procs[p].pc.draft, procs[p].pc.phase.failedAt;
      if d.id in rows {
        rows := rows[d.id := rows[d.id].(status := Error, expiresAt := Some(at), writer := Failure)];
        past := past + {d.id};
      }
      procs := procs[p := Creator(req, Failed)];
    }

    /** create_host: the lease replaces the safety term, matched on its value. */
    method ReplaceSafetyTerm(p: Pid) returns (stamped: bool)
      requires At(p) && procs[p].pc.Provision? && procs[p].pc.phase.StampLease? && Enabled(c, View(), Go(p, Plain))
      modifies this`procs, this`rows, this`past
      ensures var (req, d) := (old(procs[p].req), old(procs[p].pc.draft));
              && (stamped <==> d.id in old(rows) && old(rows)[d.id].expiresAt == Some(d.initial))
              && (!stamped ==> rows == old(rows))
              && (stamped ==>
                    && d.id in rows && rows == old(rows)[d.id := rows[d.id]]
                    && EndsAsRequested(c, req.provider, d.createdAt, req.lease, now, rows[d.id].expiresAt)
                    && rows[d.id] == old(rows)[d.id].(expiresAt := rows[d.id].expiresAt, writer := Stamp))
              && Stepped(p, Plain, Creator(req, if d.id in old(rows) then Settle(req, d.id) else Failed))
    {
      hide FindKey, FindKeyHost, CollectKey, CheckAccount, SelectWarm, UpdateWarm, DraftHost, CheckProvider, AddHost, AddKey,
           LoadLoser, ReleaseLoser, Remove, LeaseEnd, EndsAsRequested;
      var req, d := procs[p].req, procs[p].pc.draft;
      LeaseEndIsAsRequested(c, req.provider, d.createdAt, req.lease, now);
      stamped := false;
      if d.id !in rows {
        procs := procs[p := Creator(req, Failed)];
        return;
      }
      if rows[d.id].expiresAt == Some(d.initial) {
        var end := match req.lease case Permanent => None case Until(e) => Some(e) case DefaultTerm => Some(now + c.leaseTtl);
        rows := rows[d.id := rows[d.id].(expiresAt := LeaseEnd(c, req.provider, d.createdAt, end), writer := Stamp)];
        past := past + {d.id};
        stamped := true;
      }
      procs := procs[p := Creator(req, if req.key.Some? then RecordKey(d.id) else Returned(d.id, true))];
    }

    // ---- get_or_create_host: the race for the key ----

    /** _record_idempotency_key: the insert, with the unique key and the foreign key as race guards. */
    method RecordIdempotencyKey(p: Pid) returns (won: bool)
      requires At(p) && procs[p].pc.RecordKey? && procs[p].req.key.Some? && Enabled(c, View(), Go(p, Plain))
      modifies this`procs, this`keys
      ensures var (req, own) := (old(procs[p].req), old(procs[p].pc.own));
              && (won <==> req.key.value !in old(keys) && own in rows)
              && keys == (if won then old(keys)[req.key.value := KeyRecord(own, now + c.keyTtl)] else old(keys))
              && Stepped(p, Plain, Creator(req, if won then Returned(own, true) else ReadLoser(own)))
    {
      hide Build, ReleaseLoser, Remove;
      var req, own := procs[p].req, procs[p].pc.own;
      won := req.key.value !in keys && own in rows;
      if won {
        keys := keys[req.key.value := KeyRecord(own, now + c.keyTtl)];
        procs := procs[p := Creator(req, Returned(own, true))];
      } else {
        procs := procs[p := Creator(req, ReadLoser(own))];
      }
    }

    /** _release_idempotency_loser: the read of the loser, and of the clock. */
    method LoadIdempotencyLoser(p: Pid)
      requires At(p) && procs[p].pc.ReadLoser?
      modifies this`procs
      ensures var (req, own) := (old(procs[p].req), old(procs[p].pc.own));
              Stepped(p, Plain, Creator(req, if own in rows then WriteLoser(own, rows[own].claimedAt.Some?, now)
                                             else LookupKey(Some(own))))
    {
      var req, own := procs[p].req, procs[p].pc.own;
      procs := procs[p := Creator(req, if own in rows then WriteLoser(own, rows[own].claimedAt.Some?, now)
                                       else LookupKey(Some(own)))];
    }

    /** _release_idempotency_loser: the write, from what was read before. A claimed host is back in the pool, with nobody's
        name on it and the age limit of the pool; a fresh one has expired. No other row changes. */
    method ReleaseIdempotencyLoser(p: Pid)
      requires At(p) && procs[p].pc.WriteLoser? && Enabled(c, View(), Go(p, Plain))
      modifies this`procs, this`rows, this`past
      ensures var pc := old(procs[p].pc);
              && rows.Keys == old(rows).Keys
              && (forall id :: id in rows && id != pc.own ==> rows[id] == old(rows)[id])
              && (pc.own in rows && pc.wasClaimed ==>
                    && EndsAsAsked(c, old(rows)[pc.own].provider, old(rows)[pc.own].createdAt, Some(pc.now + c.poolMaxAge),
                                   rows[pc.own].expiresAt)
                    && rows[pc.own] == old(rows)[pc.own].(claimedAt := None, account := None,
                                                          expiresAt := rows[pc.own].expiresAt, writer := PoolReturn,
                                                          permanent := false))
              && (pc.own in rows && !pc.wasClaimed ==>
                    && (pc.now <= now ==> !Unexpired(rows[pc.own], now))
                    && rows[pc.own] == old(rows)[pc.own].(expiresAt := Some(pc.now), writer := LoserExpiry))
              && Stepped(p, Plain, Creator(old(procs[p].req), if pc.own in rows then LookupKey(Some(pc.own)) else Failed))
    {
      hide FindKey, FindKeyHost, CollectKey, CheckAccount, SelectWarm, UpdateWarm, DraftHost, CheckProvider, AddHost, AddKey,
           LoadLoser, Build, Remove;
      var req, pc := procs[p].req, procs[p].pc;
      if pc.own !in rows {
        procs := procs[p := Creator(req, Failed)];
        return;
      }
      var loser := rows[pc.own];
      if pc.wasClaimed {
        loser := loser.(claimedAt := None, account := None,
                        expiresAt := LeaseEnd(c, loser.provider, loser.createdAt, Some(pc.now + c.poolMaxAge)),
                        writer := PoolReturn, permanent := false);
      } else {
        loser := loser.(expiresAt := Some(pc.now), writer := LoserExpiry);
      }
      rows := rows[pc.own := loser];
      past := past + {pc.own};
      procs := procs[p := Creator(req, LookupKey(Some(pc.own)))];
    }

    // ---- renew_host ----

    /** renew_host, once the row lock is granted. A refused renewal changes nothing. */
    method RenewHost(id: HostId, expiresAt: Option<Time>) returns (outcome: Renewal)
      requires RowFree(View(), id)
      modifies this`rows, this`past
      ensures outcome.NotFound? <==> id !in old(rows)
      ensures outcome.UnclaimedPoolHost? <==> id in old(rows) && old(rows)[id].poolMember && old(rows)[id].claimedAt.None?
      ensures outcome.WrongStatus? <==>
                id in old(rows) && !(old(rows)[id].poolMember && old(rows)[id].claimedAt.None?)
                && old(rows)[id].status != Bootstrapping && old(rows)[id].status != Active
      ensures !outcome.Renewed? ==> View() == old(View())
      ensures outcome.Renewed? ==>
                && id in rows && outcome.row == rows[id] && rows == old(rows)[id := rows[id]]
                && rows[id] == old(rows)[id].(expiresAt := rows[id].expiresAt, writer := LeaseWriter.Renewal)
                && EndsAsAsked(c, rows[id].provider, rows[id].createdAt,
                               Some(if expiresAt.Some? then expiresAt.value else now + c.leaseTtl), rows[id].expiresAt)
      ensures outcome.Renewed? <==> Enabled(c, old(View()), Renew(id, expiresAt))
      ensures outcome.Renewed? ==> View() == Next(c, old(View()), Renew(id, expiresAt))
    {
      if id !in rows {
        return NotFound;
      }
      var host := rows[id];
      if host.poolMember && host.claimedAt.None? {
        return UnclaimedPoolHost;
      }
      if host.status !in RENEWABLE_STATUSES {
        return WrongStatus;
      }
      var end := if expiresAt.Some? then expiresAt.value else now + c.leaseTtl;
      host := host.(expiresAt := LeaseEnd(c, host.provider, host.createdAt, Some(end)), writer := LeaseWriter.Renewal);
      rows := rows[id := host];
      past := past + {id};
      return Renewed(host);
    }

    // ---- delete_host ----

    /** delete_host: the lock, the guards, and what to tear down. */
    method LockForDelete(p: Pid) returns (proceed: bool)
      requires Deletes(p) && procs[p].stage.LockHost? && Enabled(c, View(), Go(p, Plain))
      modifies this`procs
      ensures var (id, mode) := (old(procs[p].stage.id), old(procs[p].stage.mode));
              && (proceed <==>
                    && id in rows && (mode == Shed ==> rows[id].claimedAt.None?)
                    && (mode == Reap ==> rows[id].expiresAt.Some? && rows[id].expiresAt.value <= now)
                    && (mode == Reap || rows[id].status in {Bootstrapping, Active, Error}))
              && Deletes(p) && Stepped(p, Plain, procs[p])
              && (proceed ==> HasTarget(procs[p].stage) && RowLock(procs[p]) == Some(id)
                              && procs[p].stage.target == Target(id, rows[id].provider, rows[id].name, mode)
                              && (procs[p].stage.ReleaseDevice? <==>
                                    rows[id].hasDevice && c.tailscale)
                              && !procs[p].stage.DeleteRow?)
              && (!proceed ==> procs[p] == Deleter(Done(false)))
    {
      hide Advance;
      var id, mode := procs[p].stage.id, procs[p].stage.mode;
      proceed := false;
      if id in rows {
        var host := rows[id];
        var target := Target(id, host.provider, host.name, mode);
        var spared := (mode == Shed && host.claimedAt.Some?)
                      || (mode == Reap && (host.expiresAt.None? || host.expiresAt.value > now));
        var refused := mode != Reap && host.status in DELETE_BLOCKED_STATUSES;
        proceed := !spared && !refused;
        if proceed {
          if mode == Reap || host.status in VM_BACKED_STATUSES {
            procs := procs[p := Deleter(if host.hasDevice && c.tailscale then ReleaseDevice(target)
                                        else DeleteVm(target, true))];
          } else {
            procs := procs[p := Deleter(DeleteRow(target, true))];
          }
        }
      }
      if !proceed {
        procs := procs[p := Deleter(Done(false))];
      }
      if id in rows {
        StatusesSplit(rows[id].status);
      }
    }

    /** delete_host: the device is released, and the commit of the cleared id ends the row lock. */
    method DropDeviceOf(p: Pid, ok: bool)
      requires Deletes(p) && procs[p].stage.ReleaseDevice?
      requires Enabled(c, View(), Go(p, if ok then Plain else Fails))
      modifies this`procs, this`rows, this`past
      ensures var t := old(procs[p].stage.target);
              && rows == (if ok then old(rows)[t.id := old(rows)[t.id].(hasDevice := false)] else old(rows))
              && p in procs && RowLock(procs[p]).None?
              && Stepped(p, if ok then Plain else Fails, Deleter(if ok then DeleteVm(t, false) else Done(false)))
    {
      hide Advance;
      var t := procs[p].stage.target;
      if ok {
        rows := rows[t.id := rows[t.id].(hasDevice := false)];
        past := past + {t.id};
      }
      procs := procs[p := Deleter(if ok then DeleteVm(t, false) else Done(false))];
    }

    /** delete_host: the secrets and the VM go; a VM that is already absent is no failure. */
    method DropVm(p: Pid, ok: bool)
      requires Deletes(p) && procs[p].stage.DeleteVm?
      modifies this`procs, this`vms
      ensures var stage := old(procs[p].stage);
              && vms == (if ok then old(vms) - {Vm(stage.target.provider, stage.target.name)} else old(vms))
              && Stepped(p, if ok then Plain else Fails,
                         Deleter(if ok then DeleteRow(stage.target, stage.locked) else Done(false)))
    {
      hide Advance;
      var stage := procs[p].stage;
      if ok {
        vms := vms - {Vm(stage.target.provider, stage.target.name)};
      }
      procs := procs[p := Deleter(if ok then DeleteRow(stage.target, stage.locked) else Done(false))];
    }

    /** delete_host: the row goes with its keys, and nothing else does. */
    method DeleteHostRow(p: Pid)
      requires Deletes(p) && procs[p].stage.DeleteRow? && Enabled(c, View(), Go(p, Plain))
      modifies this`procs, this`rows, this`keys
      ensures var id := old(procs[p].stage.target.id);
              && (forall other :: other in rows <==> other in old(rows) && other != id)
              && (forall other :: other in rows ==> rows[other] == old(rows)[other])
              && (forall k :: k in keys <==> k in old(keys) && old(keys)[k].host != id)
              && (forall k :: k in keys ==> keys[k] == old(keys)[k])
      ensures Stepped(p, Plain, Deleter(Done(true)))
    {
      hide Advance;
      var id := procs[p].stage.target.id;
      rows := rows - {id};
      keys := map k | k in keys && keys[k].host != id :: keys[k];
      procs := procs[p := Deleter(Done(true))];
    }

    /** delete_host from end to end, with no other process in between. `released` and `torndown` say whether the device
        release and the provider calls succeed; either failure leaves the row for a retry. */
    method DeleteHost(id: HostId, mode: Mode, released: bool, torndown: bool) returns (outcome: Deletion)
      requires RowFree(View(), id)
      modifies this`rows, this`keys, this`vms
      ensures outcome.Missing? <==> id !in old(rows)
      ensures id in old(rows) ==>
                var row := old(rows)[id];
                && (outcome.Spared? <==> (mode == Shed && row.claimedAt.Some?) || (mode == Reap && Unexpired(row, now)))
                && (outcome.StillProvisioning? <==>
                      !outcome.Spared? && mode != Reap && row.status in DELETE_BLOCKED_STATUSES)
                && (outcome.TeardownFailed? <==>
                      !outcome.Spared? && !outcome.StillProvisioning?
                      && (!torndown || (row.hasDevice && c.tailscale && !released)))
      ensures outcome.Gone? ==>
                && rows == old(rows) - {id}
                && keys == (map k | k in old(keys) && old(keys)[k].host != id :: old(keys)[k])
                && vms == old(vms) - {Vm(old(rows)[id].provider, old(rows)[id].name)}
      ensures !outcome.Gone? ==> keys == old(keys) && vms == old(vms)
      ensures outcome.TeardownFailed? ==>
                rows == old(rows) || rows == old(rows)[id := old(rows)[id].(hasDevice := false)]
      ensures !outcome.Gone? && !outcome.TeardownFailed? ==> rows == old(rows)
    {
      if id !in rows {
        return Missing;
      }
      var host := rows[id];
      StatusesSplit(host.status);
      if (mode == Shed && host.claimedAt.Some?) || (mode == Reap && Unexpired(host, now)) {
        return Spared;
      }
      if mode != Reap && host.status in DELETE_BLOCKED_STATUSES {
        return StillProvisioning;
      }
      if mode == Reap || host.status in VM_BACKED_STATUSES {
        if host.hasDevice && c.tailscale {
          if !released {
            return TeardownFailed;
          }
          rows := rows[id := host.(hasDevice := false)];
        }
        if !torndown {
          return TeardownFailed;
        }
        vms := vms - {Vm(host.provider, host.name)};
      }
      rows := rows - {id};
      keys := map k | k in keys && keys[k].host != id :: keys[k];
      return Gone;
    }

    /** reap_expired_hosts: every selected host goes whose provider calls succeed, and a host that fails stops no other. */
    method ReapExpiredHosts(working: set<HostId>) returns (reaped: seq<HostId>)
      requires forall id :: id in rows ==> RowFree(View(), id)
      modifies this`rows, this`keys, this`vms
      ensures forall id :: id in reaped <==>
                id in old(rows) && id in working && old(rows)[id].expiresAt.Some? && old(rows)[id].expiresAt.value < now
      ensures forall i, j :: 0 <= i < j < |reaped| ==> reaped[i] != reaped[j]
      ensures forall id :: id in rows <==> id in old(rows) && id !in reaped
      ensures forall id :: id in rows ==>
                rows[id] == old(rows)[id]
                || (IsExpired(old(rows)[id], now) && rows[id] == old(rows)[id].(hasDevice := false))
    {
      var expired := set id | id in rows && IsExpired(rows[id], now);
      var left := expired;
      reaped := [];
      while left != {}
        invariant left <= expired
        invariant forall id :: id in reaped <==> id in expired && id !in left && id in working
        invariant forall i, j :: 0 <= i < j < |reaped| ==> reaped[i] != reaped[j]
        invariant forall id :: id in rows <==> id in old(rows) && id !in reaped
        invariant forall id :: id in rows ==>
                    rows[id] == old(rows)[id]
                    || (id in expired && rows[id] == old(rows)[id].(hasDevice := false))
        decreases left
      {
        var id :| id in left;
        assert RowFree(old(View()), id);
        var outcome := DeleteHost(id, Reap, id in working, id in working);
        left := left - {id};
        if outcome.Gone? {
          reaped := reaped + [id];
        }
      }
    }
  }

  predicate IsExpired(row: Row, now: Time) {
    row.expiresAt.Some? && row.expiresAt.value < now
  }

  /** What counts as live, column by column. */
  lemma LiveOfProviderIs(s: State, provider: Provider)
    ensures forall id :: id in LiveOfProvider(s, provider) <==>
              id in s.rows && s.rows[id].provider == provider && s.rows[id].status != Error
              && (s.rows[id].expiresAt.None? || s.rows[id].expiresAt.value > s.now)
  {
  }

  lemma LiveOfAccountIs(s: State, a: Account)
    ensures forall id :: id in LiveOfAccount(s, a) <==>
              id in s.rows && s.rows[id].account == Some(a) && s.rows[id].status != Error
              && (s.rows[id].expiresAt.None? || s.rows[id].expiresAt.value > s.now)
  {
  }

  /** The counts, as states. */
  lemma CountForm(c: Config, s: State, p: Pid, req: Request, d: Draft, locked: bool)
    requires p in s.procs && s.procs[p] == Creator(req, CountProvider(d, locked)) && Enabled(c, s, Go(p, Plain))
    ensures var full := req.provider in c.hostLimits && |LiveOfProvider(s, req.provider)| >= c.hostLimits[req.provider];
            Next(c, s, Go(p, Plain))
            == s.(procs := s.procs[p := Creator(req, if full then Failed
                                                     else InsertRow(d, locked, req.provider in c.hostLimits))])
  {
    hide LiveOfProvider, Build, Remove;
  }

  lemma AdmitForm(c: Config, s: State, p: Pid, req: Request)
    requires p in s.procs && s.procs[p] == Creator(req, CountAccount) && Enabled(c, s, Go(p, Plain))
    ensures var limited := AccountLimited(c, req);
            var full := limited && |LiveOfAccount(s, req.account.value)| >= c.accountLimit.value;
            Next(c, s, Go(p, Plain))
            == s.(procs := s.procs[p := Creator(req, if full then Failed else AfterCount(c, req, limited))])
  {
    hide LiveOfAccount, Build, Remove;
  }

  /** An ORM commit of the creator's row, as a state. */
  lemma CommitForm(c: Config, s: State, p: Pid, req: Request, d: Draft, phase: Phase, row: Row, next: Pc)
    requires p in s.procs && s.procs[p] == Creator(req, Provision(d, phase)) && Enabled(c, s, Go(p, Plain))
    requires Build(c, s, p, req, d, phase, Plain) == CreatorCommit(s, p, req, d.id, row, next)
    ensures Next(c, s, Go(p, Plain)) ==
            if d.id in s.rows then
              s.(rows := s.rows[d.id := row], past := s.past + {d.id}, procs := s.procs[p := Creator(req, next)])
            else s.(procs := s.procs[p := Creator(req, Failed)])
  {
    hide Build, Remove, RowFreeFor;
  }
}
