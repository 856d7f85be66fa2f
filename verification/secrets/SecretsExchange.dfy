/**
 The exchange itself: a dictionary of entry objects that tasks hold on to, although an order puts a new object under a key
 and forgetting a host drops one. Each method is one step, and its contract says which step of SecretsProtocol it is, so
 what SecretsSchedules and SecretsDeliveries prove over every schedule holds of these objects.
 */
module SecretsExchange {
  import opened Wrappers
  import opened RefreshableSecrets
  import opened SecretsProtocol
  import opened SecretsSchedules

  class Secrets {
    var now: Time
    var step: nat
    var refreshable: map<Key, RefreshableSecret>
    var tasks: map<TaskId, Task<RefreshableSecret>>
    ghost var entries: set<RefreshableSecret>   // every entry object ever made
    ghost var model: State

    ghost predicate Valid()
      reads this, entries
    {
      Refines() && Ok(model)
    }

    /** The model has each object under the step that made it, with the same value, and the same keys and tasks. */
    ghost predicate Refines()
      reads this, entries
    {
      && model.now == now && model.step == step
      && (forall e :: e in entries ==> Mirrored(e))
      && (forall e, f :: e in entries && f in entries && e.born == f.born ==> e == f)
      && refreshable.Keys == model.current.Keys && tasks.Keys == model.tasks.Keys
      && (forall k :: k in refreshable ==> refreshable[k] in entries && refreshable[k].born == model.current[k])
      && (forall t :: t in tasks ==> tasks[t].entry in entries && Named(tasks[t]) == model.tasks[t])
    }

    ghost predicate Mirrored(e: RefreshableSecret)
      reads this`model, e
    {
      e.born in model.entries && model.entries[e.born] == e.Value()
    }

    ghost function Named(task: Task<RefreshableSecret>): (named: Task<EntryId>) {
      match task
      case Queued(e, key) => Queued(e.born, key)
      case Fetching(e, key, purpose, begun) => Fetching(e.born, key, purpose, begun)
      case Delivering(e, key, secret, pushBegun, byOrder) => Delivering(e.born, key, secret, pushBegun, byOrder)
      case Ended(e, key) => Ended(e.born, key)
    }

    constructor (now: Time)
      ensures Valid() && model == Start(now) && fresh(entries)
    {
      this.now, step, refreshable, tasks := now, 0, map[], map[];
      entries, model := {}, Start(now);
    }

    // ---- The parts of a step ----

    method Pass(elapsed: nat)
      requires Refines()
      modifies this`now, this`step, this`model
      ensures Refines() && model == Tick(old(model), elapsed) && now == old(now) + elapsed
    {
      now, step := now + elapsed, step + 1;
      model := Tick(model, elapsed);
    }

    /** A new entry object under a key, in place of any older one. */
    method AddEntry(key: Key) returns (entry: RefreshableSecret)
      requires Refines() && step !in model.entries
      modifies this`refreshable, this`entries, this`model
      ensures Refines() && fresh(entry) && entries == old(entries) + {entry} && model == WithEntry(old(model), key)
      ensures refreshable == old(refreshable)[key := entry] && entry.born == model.current[key]
    {
      entry := new RefreshableSecret(now, step);
      refreshable, entries, model := refreshable[key := entry], entries + {entry}, WithEntry(model, key);
    }

    /** setdefault: the entry of the key, created when absent. */
    method EntryOf(key: Key) returns (entry: RefreshableSecret)
      requires Refines() && step !in model.entries
      modifies this`refreshable, this`entries, this`model
      ensures Refines() && fresh(entries - old(entries)) && old(entries) <= entries && model == Entered(old(model), key)
      ensures entry in entries && key in refreshable && refreshable[key] == entry && entry.born == model.current[key]
    {
      if key in refreshable {
        entry := refreshable[key];
      } else {
        entry := AddEntry(key);
      }
    }

    /** One task comes, changes or goes. */
    method SetTask(id: TaskId, task: Option<Task<RefreshableSecret>>)
      requires Refines() && (task.Some? ==> task.value.entry in entries)
      modifies this`tasks, this`model
      ensures Refines()
      ensures model == old(model).(tasks := if task.Some? then old(model).tasks[id := Named(task.value)]
                                            else old(model).tasks - {id})
    {
      if task.Some? {
        tasks, model := tasks[id := task.value], model.(tasks := model.tasks[id := Named(task.value)]);
      } else {
        tasks, model := tasks - {id}, model.(tasks := model.tasks - {id});
      }
    }

    /** The model follows an entry object that has changed. */
    ghost method Mirror(e: RefreshableSecret)
      requires e in entries && e.born in model.entries
      requires model.now == now && model.step == step
      requires forall f :: f in entries && f != e ==> Mirrored(f)
      requires forall e, f :: e in entries && f in entries && e.born == f.born ==> e == f
      requires refreshable.Keys == model.current.Keys && tasks.Keys == model.tasks.Keys
      requires forall k :: k in refreshable ==> refreshable[k] in entries && refreshable[k].born == model.current[k]
      requires forall t :: t in tasks ==> tasks[t].entry in entries && Named(tasks[t]) == model.tasks[t]
      modifies this`model
      ensures Refines() && model == old(model).(entries := old(model).entries[e.born := e.Value()])
    {
      model := model.(entries := model.entries[e.born := e.Value()]);
    }

    method BeginFetchFor(entry: RefreshableSecret, key: Key, purpose: Purpose) returns (waits: bool)
      requires Refines() && entry in entries
      modifies this`tasks, this`model
      ensures Refines() && entry.born in old(model).entries && waits == MayFetch(old(model), entry.born)
      ensures model == BeginFetch(old(model), entry.born, key, purpose)
    {
      assert Mirrored(entry);
      waits := now >= entry.nextAttempt;
      if waits {
        SetTask(step, Some(Fetching(entry, key, purpose, step)));
      }
    }

    /** refresh_in_background: one background task at a time per entry object. */
    method QueueRefresh(entry: RefreshableSecret, key: Key)
      requires Refines() && entry in entries
      modifies this`tasks, this`model, entry`fetching
      ensures Refines() && entry.born in old(model).entries
      ensures model == RefreshInBackground(old(model), entry.born, key)
      ensures entry.latest == old(entry.latest) && entry.fetching.Some?
    {
      assert Mirrored(entry);
      if entry.fetching.None? {
        entry.fetching := Some(step);
        Mirror(entry);
        SetTask(step, Some(Queued(entry, key)));
      }
    }

    /** The second half of a push: hand over a value the provider lacks, if it was valid when the push began. */
    method HandOverFrom(id: TaskId, entry: RefreshableSecret, key: Key, pushBegun: Time, byOrder: bool)
      returns (outcome: Outcome)
      requires Refines() && entry in entries
      modifies this`tasks, this`model
      ensures Refines() && entry.born in old(model).entries
      ensures (model, outcome) == HandOver(old(model), id, entry.born, key, pushBegun, byOrder)
    {
      assert Mirrored(entry);
      if entry.latest.Some? && entry.latest != entry.pushed && entry.latest.value.IsValid(pushBegun) {
        SetTask(id, Some(Delivering(entry, key, entry.latest.value, pushBegun, byOrder)));
        return Waits;
      }
      SetTask(id, None);
      return if byOrder then IssuerUnavailable else Done;
    }

    /** The first half of a push: ask the issuer, unless a value is there to be handed over. */
    method BeginPush(entry: RefreshableSecret, key: Key, byOrder: bool) returns (outcome: Outcome)
      requires Refines() && entry in entries
      modifies this`tasks, this`model
      ensures Refines() && entry.born in old(model).entries
      ensures (model, outcome) == StartPush(old(model), entry.born, key, byOrder)
    {
      assert Mirrored(entry);
      if entry.latest == entry.pushed || entry.latest.None? || !entry.latest.value.IsValid(now) {
        var waits := BeginFetchFor(entry, key, ToPush(now, byOrder));
        if waits {
          return Waits;
        }
      }
      outcome := HandOverFrom(step, entry, key, now, byOrder);
    }

    /** current, up to its first await. */
    method CurrentOf(key: Key) returns (outcome: Outcome)
      requires Refines() && step !in model.entries
      modifies this, entries
      ensures Refines() && fresh(entries - old(entries)) && Entered(old(model), key).current[key] in Entered(old(model), key).entries
      ensures (model, outcome) == StepCall(Entered(old(model), key), key)
    {
      hide Tick, NewEntry, Learned;
      var entry := EntryOf(key);
      assert Mirrored(entry);
      if entry.latest.Some? && entry.latest.value.IsValid(now) {
        outcome := Served(key, step, entry.latest.value);
        if entry.latest.value.IsStale(now) {
          QueueRefresh(entry, key);
        }
      } else {
        var waits := BeginFetchFor(entry, key, ToServe);
        outcome := if waits then Waits else IssuerUnavailable;
      }
    }

    /** refresh, up to its first await: the held value goes with its entry object, and the issuer is asked at once. */
    method RefreshOf(key: Key, needsValue: bool) returns (outcome: Outcome)
      requires Refines() && step !in model.entries
      modifies this, entries
      ensures Refines() && fresh(entries - old(entries)) && WithEntry(old(model), key).current[key] in WithEntry(old(model), key).entries
      ensures (model, outcome) == StepOrder(WithEntry(old(model), key), key, needsValue)
      ensures key in refreshable && fresh(refreshable[key]) && refreshable[key] in entries
    {
      hide Tick, NewEntry, Learned, StartPush, BeginFetch;
      var entry := AddEntry(key);
      assert Mirrored(entry);
      if needsValue {
        outcome := BeginPush(entry, key, true);
      } else {
        var _ := BeginFetchFor(entry, key, ToHold);
        outcome := Waits;
      }
    }

    /** push, up to its first await: only a provider that needs the value is visited, and only when it is due. */
    method PushOf(key: Key, needsValue: bool) returns (outcome: Outcome)
      requires Refines() && step !in model.entries
      modifies this, entries
      ensures Refines() && fresh(entries - old(entries)) && Entered(old(model), key).current[key] in Entered(old(model), key).entries
      ensures (model, outcome) == StepVisit(Entered(old(model), key), key, needsValue)
    {
      hide Tick, NewEntry, Learned, StartPush;
      var entry := EntryOf(key);
      assert Mirrored(entry);
      outcome := Done;
      if needsValue && now >= entry.nextAttempt && (entry.pushed.None? || entry.pushed.value.IsStale(now)) {
        outcome := BeginPush(entry, key, false);
      }
    }

    /** The background refresh runs: it asks the issuer, unless the wait is not over. */
    method RunQueued(id: TaskId)
      requires Refines() && id in tasks && tasks[id].Queued?
      modifies this`tasks, this`model
      ensures Refines() && id in old(model).tasks && old(model).tasks[id].Queued?
      ensures old(model).tasks[id].entry in old(model).entries && model == StepBackground(old(model), id)
    {
      var task := tasks[id];
      assert Mirrored(task.entry);
      SetTask(id, Some(if now >= task.entry.nextAttempt then Fetching(task.entry, task.key, InBackground, step)
                       else Ended(task.entry, task.key)));
    }

    /** deliver ends. */
    method EndDelivery(id: TaskId, ok: bool)
      requires Refines() && id in tasks && tasks[id].Delivering?
      modifies this`tasks, this`model, tasks[id].entry
      ensures Refines() && id in old(model).tasks && old(model).tasks[id].Delivering?
      ensures old(model).tasks[id].entry in old(model).entries && model == StepDelivered(old(model), id, ok).0
      ensures StepDelivered(old(model), id, ok).1 == if ok then Done else Outcome.ProviderFailed
    {
      hide Delivered;
      var task := tasks[id];
      assert Mirrored(task.entry);
      task.entry.EndDelivery(now, task.secret, ok);
      Mirror(task.entry);
      SetTask(id, None);
    }

    /** The done callback of a background refresh. */
    method ClearFetching(id: TaskId)
      requires Refines() && id in tasks && tasks[id].Ended?
      modifies this`tasks, this`model, tasks[id].entry`fetching
      ensures Refines() && id in old(model).tasks && old(model).tasks[id].Ended?
      ensures old(model).tasks[id].entry in old(model).entries && model == StepCallback(old(model), id)
    {
      var entry := tasks[id].entry;
      assert Mirrored(entry);
      entry.fetching := None;
      Mirror(entry);
      SetTask(id, None);
    }

    /** The task of the model has the same kind. */
    lemma SameKind(id: TaskId)
      requires Refines()
      ensures id in tasks <==> id in model.tasks
      ensures id in tasks ==>
                && tasks[id].entry in entries
                && model.tasks[id] == Named(tasks[id])
                && (tasks[id].Queued? <==> model.tasks[id].Queued?) && (tasks[id].Fetching? <==> model.tasks[id].Fetching?)
                && (tasks[id].Delivering? <==> model.tasks[id].Delivering?) && (tasks[id].Ended? <==> model.tasks[id].Ended?)
                && (tasks[id].Fetching? ==> tasks[id].purpose == model.tasks[id].purpose)
    {
    }

    /** What an entry holds once a fetch has ended: the answer, with the expiry it states or at the end of its lifetime, unless
        the answer is an error or has expired by now. */
    function Fetched(answer: Answer, begun: nat, before: Option<Secret>): (latest: Option<Secret>)
      reads this`now
    {
      if answer.Answered? && answer.expiresAt.Some? && now < answer.expiresAt.value
      then Some(Secret(answer.value, answer.expiresAt, begun))
      else if answer.Answered? && answer.expiresAt.None? && answer.lifetime > 0
      then Some(Secret(answer.value, Some(now + answer.lifetime), begun))
      else before
    }

    /** Secret.fetch ends: the entry object that the task holds takes the answer, whatever object its key has by now. */
    method Learn(id: TaskId, answer: Answer)
      requires Refines() && id in tasks && tasks[id].Fetching?
      modifies this`model, tasks[id].entry
      ensures Refines() && id in old(model).tasks && old(model).tasks[id].Fetching?
      ensures old(model).tasks[id].entry in old(model).entries && model == LearnedIn(old(model), id, answer)
      ensures old(tasks[id].entry).latest == Fetched(answer, old(tasks[id].begun), old(tasks[id].entry.latest))
    {
      var task := tasks[id];
      assert Mirrored(task.entry);
      var secret :=
        if answer.Failed? then None
        else
          var expiresAt := if answer.expiresAt.Some? then answer.expiresAt.value else now + answer.lifetime;
          var secret := Secret(answer.value, Some(expiresAt), task.begun);
          if secret.IsValid(now) then Some(secret) else None;
      task.entry.EndFetch(now, secret);
      Mirror(task.entry);
    }

    /** What the task of a fetch does next, up to its next await. */
    method GoOn(id: TaskId) returns (outcome: Outcome)
      requires Refines() && id in tasks && tasks[id].Fetching?
      modifies this`tasks, this`model
      ensures Refines() && id in old(model).tasks && old(model).tasks[id].Fetching?
      ensures old(model).tasks[id].entry in old(model).entries && (model, outcome) == AfterFetch(old(model), id)
    {
      var task := tasks[id];
      assert Mirrored(task.entry);
      match task.purpose {
        case InBackground =>
          SetTask(id, Some(Ended(task.entry, task.key)));
          outcome := Done;
        case ToServe =>
          SetTask(id, None);
          outcome := if task.entry.latest.Some? && task.entry.latest.value.IsValid(now)
                     then Served(task.key, task.begun, task.entry.latest.value) else IssuerUnavailable;
        case ToHold =>
          SetTask(id, None);
          outcome := if task.entry.latest.Some? then Done else IssuerUnavailable;
        case ToPush(pushBegun, byOrder) =>
          outcome := HandOverFrom(id, task.entry, task.key, pushBegun, byOrder);
      }
    }

    /** A fetch ends, and its task goes on. */
    method EndFetch(id: TaskId, answer: Answer) returns (outcome: Outcome)
      requires Refines() && id in tasks && tasks[id].Fetching?
      modifies this`tasks, this`model, tasks[id].entry
      ensures Refines() && id in old(model).tasks && old(model).tasks[id].Fetching?
      ensures old(model).tasks[id].entry in old(model).entries && (model, outcome) == StepFetched(old(model), id, answer)
      ensures old(tasks[id].entry).latest == Fetched(answer, old(tasks[id].begun), old(tasks[id].entry.latest))
    {
      hide LearnedIn, AfterFetch, Refines;
      Learn(id, answer);
      outcome := GoOn(id);
    }

    method Forget(existing: set<nat>)
      requires Refines()
      modifies this`refreshable, this`model
      ensures Refines()
      ensures refreshable == map k | k in old(refreshable) && k.host in existing :: old(refreshable)[k]
      ensures model == old(model).(current := map k | k in old(model).current && k.host in existing :: old(model).current[k])
    {
      refreshable := map k | k in refreshable && k.host in existing :: refreshable[k];
      model := model.(current := map k | k in model.current && k.host in existing :: model.current[k]);
    }

    // ---- The steps ----

    lemma IsLinked()
      requires Valid()
      ensures Linked(model)
    {
      OkIsLinked(model);
    }

    /** What each step begins with: the clock moves, and the step has a name of its own. */
    method Begin(elapsed: nat)
      requires Valid()
      modifies this`now, this`step, this`model
      ensures Refines() && Linked(old(model)) && model == Tick(old(model), elapsed) && step !in model.entries
      ensures now == old(now) + elapsed
    {
      IsLinked();
      TickOk(model, elapsed);
      hide Ok;
      Pass(elapsed);
    }

    /** `current` begins. */
    method Call(elapsed: nat, key: Key) returns (outcome: Outcome)
      requires Valid()
      modifies this, entries
      ensures Valid() && fresh(entries - old(entries)) && Linked(old(model))
      ensures (model, outcome) == Step(old(model), Moment(Event.Call(key), elapsed))
    {
      hide Ok, Refines, StepCall, StepOrder, StepVisit, StepFetched, StepDelivered, StepBackground, StepCallback, Tick,
           WithEntry, Entered, Named;
      StepOk(model, Moment(Event.Call(key), elapsed));
      Begin(elapsed);
      outcome := CurrentOf(key);
    }

    /** `refresh` begins, under a new entry object. */
    method Order(elapsed: nat, key: Key, needsValue: bool) returns (outcome: Outcome)
      requires Valid()
      modifies this, entries
      ensures Valid() && fresh(entries - old(entries)) && Linked(old(model))
      ensures (model, outcome) == Step(old(model), Moment(Event.Order(key, needsValue), elapsed))
      ensures key in refreshable && fresh(refreshable[key])
    {
      hide Ok, Refines, StepCall, StepOrder, StepVisit, StepFetched, StepDelivered, StepBackground, StepCallback, Tick,
           WithEntry, Entered, Named;
      StepOk(model, Moment(Event.Order(key, needsValue), elapsed));
      Begin(elapsed);
      outcome := RefreshOf(key, needsValue);
    }

    /** `push` begins. */
    method VisitProvider(elapsed: nat, key: Key, needsValue: bool) returns (outcome: Outcome)
      requires Valid()
      modifies this, entries
      ensures Valid() && fresh(entries - old(entries)) && Linked(old(model))
      ensures (model, outcome) == Step(old(model), Moment(Event.VisitProvider(key, needsValue), elapsed))
    {
      hide Ok, Refines, StepCall, StepOrder, StepVisit, StepFetched, StepDelivered, StepBackground, StepCallback, Tick,
           WithEntry, Entered, Named;
      StepOk(model, Moment(Event.VisitProvider(key, needsValue), elapsed));
      Begin(elapsed);
      outcome := PushOf(key, needsValue);
    }

    method BackgroundRuns(elapsed: nat, id: TaskId) returns (outcome: Outcome)
      requires Valid()
      modifies this, entries
      ensures Valid() && fresh(entries - old(entries)) && Linked(old(model))
      ensures (model, outcome) == Step(old(model), Moment(Event.BackgroundRuns(id), elapsed))
    {
      hide Ok, Refines, StepCall, StepOrder, StepVisit, StepFetched, StepDelivered, StepBackground, StepCallback, Tick,
           WithEntry, Entered, Named;
      StepOk(model, Moment(Event.BackgroundRuns(id), elapsed));
      Begin(elapsed);
      SameKind(id);
      if id !in tasks || !tasks[id].Queued? {
        return Ignored;
      }
      RunQueued(id);
      return Done;
    }

    method FetchEnds(elapsed: nat, id: TaskId, answer: Answer) returns (outcome: Outcome)
      requires Valid()
      modifies this, entries
      ensures Valid() && fresh(entries - old(entries)) && Linked(old(model))
      ensures (model, outcome) == Step(old(model), Moment(Event.FetchEnds(id, answer), elapsed))
      ensures now == old(now) + elapsed
      ensures id in old(tasks) && old(tasks)[id].Fetching? ==>
                old(tasks)[id].entry.latest == Fetched(answer, old(tasks)[id].begun, old(tasks[id].entry.latest))
    {
      hide Ok, Refines, StepCall, StepOrder, StepVisit, StepFetched, StepDelivered, StepBackground, StepCallback, Tick,
           WithEntry, Entered, Named;
      StepOk(model, Moment(Event.FetchEnds(id, answer), elapsed));
      Begin(elapsed);
      SameKind(id);
      if id !in tasks || !tasks[id].Fetching? {
        return Ignored;
      }
      outcome := EndFetch(id, answer);
    }

    method DeliveryEnds(elapsed: nat, id: TaskId, ok: bool) returns (outcome: Outcome)
      requires Valid()
      modifies this, entries
      ensures Valid() && fresh(entries - old(entries)) && Linked(old(model))
      ensures (model, outcome) == Step(old(model), Moment(Event.DeliveryEnds(id, ok), elapsed))
    {
      hide Ok, Refines, StepCall, StepOrder, StepVisit, StepFetched, StepDelivered, StepBackground, StepCallback, Tick,
           WithEntry, Entered, Named;
      StepOk(model, Moment(Event.DeliveryEnds(id, ok), elapsed));
      Begin(elapsed);
      SameKind(id);
      if id !in tasks || !tasks[id].Delivering? {
        return Ignored;
      }
      EndDelivery(id, ok);
      return if ok then Done else Outcome.ProviderFailed;
    }

    method Callback(elapsed: nat, id: TaskId) returns (outcome: Outcome)
      requires Valid()
      modifies this, entries
      ensures Valid() && fresh(entries - old(entries)) && Linked(old(model))
      ensures (model, outcome) == Step(old(model), Moment(Event.Callback(id), elapsed))
    {
      hide Ok, Refines, StepCall, StepOrder, StepVisit, StepFetched, StepDelivered, StepBackground, StepCallback, Tick,
           WithEntry, Entered, Named;
      StepOk(model, Moment(Event.Callback(id), elapsed));
      Begin(elapsed);
      SameKind(id);
      if id !in tasks || !tasks[id].Ended? {
        return Ignored;
      }
      ClearFetching(id);
      return Done;
    }

    /** A caller goes away. */
    method Cancel(elapsed: nat, id: TaskId) returns (outcome: Outcome)
      requires Valid()
      modifies this, entries
      ensures Valid() && fresh(entries - old(entries)) && Linked(old(model))
      ensures (model, outcome) == Step(old(model), Moment(Event.Cancel(id), elapsed))
    {
      hide Ok, Refines, StepCall, StepOrder, StepVisit, StepFetched, StepDelivered, StepBackground, StepCallback, Tick,
           WithEntry, Entered, Named;
      StepOk(model, Moment(Event.Cancel(id), elapsed));
      Begin(elapsed);
      SameKind(id);
      if id !in tasks || tasks[id].Queued? || tasks[id].Ended? || (tasks[id].Fetching? && tasks[id].purpose.InBackground?) {
        return Ignored;
      }
      SetTask(id, None);
      return Done;
    }

    method ForgetDeletedHosts(elapsed: nat, existing: set<nat>) returns (outcome: Outcome)
      requires Valid()
      modifies this, entries
      ensures Valid() && fresh(entries - old(entries)) && Linked(old(model))
      ensures (model, outcome) == Step(old(model), Moment(Event.Forget(existing), elapsed))
      ensures refreshable == map k | k in old(refreshable) && k.host in existing :: old(refreshable)[k]
    {
      hide Ok, Refines, StepCall, StepOrder, StepVisit, StepFetched, StepDelivered, StepBackground, StepCallback, Tick,
           WithEntry, Entered, Named;
      StepOk(model, Moment(Event.Forget(existing), elapsed));
      Begin(elapsed);
      Forget(existing);
      return Done;
    }
  }

  /** One moment of a schedule. */
  method Take(s: Secrets, m: Moment) returns (outcome: Outcome)
    requires s.Valid()
    modifies s, s.entries
    ensures s.Valid() && fresh(s.entries - old(s.entries)) && Linked(old(s.model))
    ensures (s.model, outcome) == Step(old(s.model), m)
  {
    hide Ok, Step;
    match m.event {
      case Call(key) => outcome := s.Call(m.elapsed, key);
      case Order(key, needsValue) => outcome := s.Order(m.elapsed, key, needsValue);
      case VisitProvider(key, needsValue) => outcome := s.VisitProvider(m.elapsed, key, needsValue);
      case BackgroundRuns(id) => outcome := s.BackgroundRuns(m.elapsed, id);
      case FetchEnds(id, answer) => outcome := s.FetchEnds(m.elapsed, id, answer);
      case DeliveryEnds(id, ok) => outcome := s.DeliveryEnds(m.elapsed, id, ok);
      case Callback(id) => outcome := s.Callback(m.elapsed, id);
      case Cancel(id) => outcome := s.Cancel(m.elapsed, id);
      case Forget(existing) => outcome := s.ForgetDeletedHosts(m.elapsed, existing);
    }
  }

  /** Every schedule, on the objects: one outcome for each moment, which is the outcome of the protocol. So each reply is
      valid and no older than the orders before its call, and each call that can be answered is. */
  method RunSchedule(start: Time, moments: seq<Moment>) returns (outcomes: seq<Outcome>)
    ensures |outcomes| == |moments|
    ensures forall i :: 0 <= i < |moments| ==> outcomes[i] == OutcomeAt(start, moments, i)
    ensures forall i :: 0 <= i < |moments| && outcomes[i].Served? ==>
              && outcomes[i].secret.IsValid(StateAt(start, moments, i + 1).now)
              && forall k :: 0 <= k < |moments| && k < outcomes[i].called - 1 && Orders(moments[k], outcomes[i].key) ==>
                   k + 1 <= outcomes[i].secret.begun
  {
    hide Ok, Step, Secrets.Valid;
    var s := new Secrets(start);
    outcomes := [];
    assert StateAt(start, moments, 0) == Start(start);
    while |outcomes| < |moments|
      invariant |outcomes| <= |moments| && s.Valid() && fresh(s) && fresh(s.entries)
      invariant s.model == StateAt(start, moments, |outcomes|)
      invariant forall i :: 0 <= i < |outcomes| ==> outcomes[i] == OutcomeAt(start, moments, i)
    {
      StateAfter(start, moments, |outcomes|);
      var outcome := Take(s, moments[|outcomes|]);
      outcomes := outcomes + [outcome];
    }
    forall i | 0 <= i < |moments| && outcomes[i].Served?
      ensures outcomes[i].secret.IsValid(StateAt(start, moments, i + 1).now)
      ensures forall k :: 0 <= k < |moments| && k < outcomes[i].called - 1 && Orders(moments[k], outcomes[i].key) ==>
                k + 1 <= outcomes[i].secret.begun
    {
      ServedIsFresh(start, moments, i);
    }
  }
}
