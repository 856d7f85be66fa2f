/**
 The exchange as a step system. It serves many callers on one event loop, so a step is the code of one task between two
 awaits, and a schedule is any sequence of steps. An entry object is named by the step that created it, a task by the step
 that began it, and a fetch is stamped by the step in which it asked the issuer.
 */
module SecretsProtocol {
  import opened Wrappers
  import opened RefreshableSecrets

  datatype Key = Key(host: nat, service: string)

  type EntryId = nat

  /** What an issuer answers; `lifetime` is the refresh interval of its entry. */
  datatype Answer =
    | Failed
    | Answered(value: string, expiresAt: Option<Time>, lifetime: Time)

  /** Why a fetch runs. */
  datatype Purpose =
    | ToServe
    | ToPush(pushBegun: Time, byOrder: bool)
    | ToHold
    | InBackground

  /** What an entry waits for. `Queued` is a background refresh that has not run yet, and `Ended` one whose done callback
      has not. */
  datatype Task<E> =
    | Queued(entry: E, key: Key)
    | Fetching(entry: E, key: Key, purpose: Purpose, begun: nat)
    | Delivering(entry: E, key: Key, secret: Secret, pushBegun: Time, byOrder: bool)
    | Ended(entry: E, key: Key)

  datatype State = State(
    now: Time,
    step: nat,
    entries: map<EntryId, Entry>,     // every entry object ever made
    current: map<Key, EntryId>,
    tasks: map<TaskId, Task<EntryId>>
  )

  datatype Event =
    | Call(key: Key)
    | Order(key: Key, needsValue: bool)
    | VisitProvider(key: Key, needsValue: bool)
    | BackgroundRuns(id: TaskId)
    | FetchEnds(id: TaskId, answer: Answer)
    | DeliveryEnds(id: TaskId, ok: bool)
    | Callback(id: TaskId)
    | Cancel(id: TaskId)
    | Forget(existing: set<nat>)

  /** An event, and the time since the one before. */
  datatype Moment = Moment(event: Event, elapsed: nat)

  /** `Served` says which call it answers: its key and the step at which it began. The steps count from one. */
  datatype Outcome =
    | Served(key: Key, called: nat, secret: Secret)
    | Waits
    | Done
    | IssuerUnavailable
    | ProviderFailed
    | Ignored

  function Expiry(answer: Answer, now: Time): Time
    requires answer.Answered?
  {
    if answer.expiresAt.Some? then answer.expiresAt.value else now + answer.lifetime
  }

  predicate Usable(answer: Answer, now: Time) {
    answer.Answered? && now < Expiry(answer, now)
  }

  /** Secret.fetch: an answer without an expiry gets one, and an expired answer is an error. */
  function Received(answer: Answer, begun: nat, now: Time): (secret: Option<Secret>)
    ensures secret.Some? ==> secret.value.IsValid(now) && secret.value.begun == begun
    ensures secret.Some? <==> Usable(answer, now)
  {
    if Usable(answer, now) then Some(Secret(answer.value, Some(Expiry(answer, now)), begun)) else None
  }

  predicate IsBackground(task: Task<EntryId>) {
    task.Queued? || task.Ended? || (task.Fetching? && task.purpose.InBackground?)
  }

  // ---- Steps ----

  function Tick(s: State, elapsed: nat): (t: State) {
    s.(now := s.now + elapsed, step := s.step + 1)
  }

  function WithEntry(s: State, key: Key): (t: State) {
    s.(entries := s.entries[s.step := NewEntry(s.now)], current := s.current[key := s.step])
  }

  /** setdefault: the key has an entry. */
  function Entered(s: State, key: Key): (t: State)
    ensures key in t.current
  {
    if key in s.current then s else WithEntry(s, key)
  }

  /** A fetch begins, unless the issuer must not be asked yet. */
  function BeginFetch(s: State, e: EntryId, key: Key, purpose: Purpose): (t: State)
    requires e in s.entries
  {
    if s.now >= s.entries[e].nextAttempt then s.(tasks := s.tasks[s.step := Fetching(e, key, purpose, s.step)]) else s
  }

  predicate MayFetch(s: State, e: EntryId)
    requires e in s.entries
  {
    s.now >= s.entries[e].nextAttempt
  }

  function RefreshInBackground(s: State, e: EntryId, key: Key): (t: State)
    requires e in s.entries
  {
    if s.entries[e].fetching.Some? then s
    else s.(entries := s.entries[e := s.entries[e].(fetching := Some(s.step))], tasks := s.tasks[s.step := Queued(e, key)])
  }

  /** current, up to its first await. */
  function StepCall(s: State, key: Key): (r: (State, Outcome))
    requires key in s.current && s.current[key] in s.entries
  {
    var e := s.current[key];
    var entry := s.entries[e];
    if entry.HoldsValid(s.now) then
      (if entry.latest.value.IsStale(s.now) then RefreshInBackground(s, e, key) else s,
       Served(key, s.step, entry.latest.value))
    else
      (BeginFetch(s, e, key, ToServe), if MayFetch(s, e) then Waits else IssuerUnavailable)
  }

  /** The second half of a push, for the task `id`. */
  function HandOver(s: State, id: TaskId, e: EntryId, key: Key, pushBegun: Time, byOrder: bool): (r: (State, Outcome))
    requires e in s.entries
  {
    if s.entries[e].CanHandOver(pushBegun) then
      (s.(tasks := s.tasks[id := Delivering(e, key, s.entries[e].latest.value, pushBegun, byOrder)]), Waits)
    else
      (s.(tasks := s.tasks - {id}), if byOrder then IssuerUnavailable else Done)
  }

  /** The first half of a push. */
  function StartPush(s: State, e: EntryId, key: Key, byOrder: bool): (r: (State, Outcome))
    requires e in s.entries
  {
    if !s.entries[e].CanHandOver(s.now) && MayFetch(s, e) then
      (BeginFetch(s, e, key, ToPush(s.now, byOrder)), Waits)
    else
      HandOver(s, s.step, e, key, s.now, byOrder)
  }

  /** push, up to its first await. */
  function StepVisit(s: State, key: Key, needsValue: bool): (r: (State, Outcome))
    requires key in s.current && s.current[key] in s.entries
  {
    if needsValue && s.entries[s.current[key]].IsDue(s.now) then StartPush(s, s.current[key], key, false) else (s, Done)
  }

  /** refresh, up to its first await, under a new entry object. */
  function StepOrder(s: State, key: Key, needsValue: bool): (r: (State, Outcome))
    requires key in s.current && s.current[key] in s.entries
  {
    if needsValue then StartPush(s, s.current[key], key, true) else (BeginFetch(s, s.current[key], key, ToHold), Waits)
  }

  /** The entry a fetch began for takes the answer. */
  function LearnedIn(s: State, id: TaskId, answer: Answer): (t: State)
    requires id in s.tasks && s.tasks[id].Fetching? && s.tasks[id].entry in s.entries
  {
    var task := s.tasks[id];
    s.(entries := s.entries[task.entry := Learned(s.entries[task.entry], s.now, Received(answer, task.begun, s.now))])
  }

  /** What a task does after its fetch, up to its next await. */
  function AfterFetch(s: State, id: TaskId): (r: (State, Outcome))
    requires id in s.tasks && s.tasks[id].Fetching? && s.tasks[id].entry in s.entries
  {
    var task := s.tasks[id];
    var entry := s.entries[task.entry];
    match task.purpose
    case InBackground => (s.(tasks := s.tasks[id := Ended(task.entry, task.key)]), Done)
    case ToServe =>
      (s.(tasks := s.tasks - {id}),
       if entry.HoldsValid(s.now) then Served(task.key, task.begun, entry.latest.value) else IssuerUnavailable)
    case ToHold => (s.(tasks := s.tasks - {id}), if entry.latest.Some? then Done else IssuerUnavailable)
    case ToPush(pushBegun, byOrder) => HandOver(s, id, task.entry, task.key, pushBegun, byOrder)
  }

  /** The end of a fetch, and what its task does up to its next await. */
  function StepFetched(s: State, id: TaskId, answer: Answer): (r: (State, Outcome))
    requires id in s.tasks && s.tasks[id].Fetching? && s.tasks[id].entry in s.entries
  {
    AfterFetch(LearnedIn(s, id, answer), id)
  }

  function StepDelivered(s: State, id: TaskId, ok: bool): (r: (State, Outcome))
    requires id in s.tasks && s.tasks[id].Delivering? && s.tasks[id].entry in s.entries
  {
    var task := s.tasks[id];
    (s.(entries := s.entries[task.entry := Delivered(s.entries[task.entry], s.now, task.secret, ok)], tasks := s.tasks - {id}),
     if ok then Done else Outcome.ProviderFailed)
  }

  /** The background refresh gets its turn: it asks the issuer, or the wait is not over and it ends. */
  function StepBackground(s: State, id: TaskId): (t: State)
    requires id in s.tasks && s.tasks[id].Queued? && s.tasks[id].entry in s.entries
  {
    var task := s.tasks[id];
    s.(tasks := s.tasks[id := if MayFetch(s, task.entry) then Fetching(task.entry, task.key, InBackground, s.step)
                              else Ended(task.entry, task.key)])
  }

  function StepCallback(s: State, id: TaskId): (t: State)
    requires id in s.tasks && s.tasks[id].Ended? && s.tasks[id].entry in s.entries
  {
    var e := s.tasks[id].entry;
    s.(entries := s.entries[e := s.entries[e].(fetching := None)], tasks := s.tasks - {id})
  }

  /** Which entries the keys and tasks point to. */
  ghost predicate Linked(s: State) {
    && (forall k :: k in s.current ==> s.current[k] in s.entries)
    && (forall t :: t in s.tasks ==> s.tasks[t].entry in s.entries)
  }

  predicate Arrives(event: Event) {
    event.Call? || event.Order? || event.VisitProvider?
  }

  /** A caller or the push loop comes to the exchange. */
  ghost function StepArrival(s: State, event: Event): (r: (State, Outcome))
    requires Linked(s) && Arrives(event)
  {
    match event
    case Call(key) => StepCall(Entered(s, key), key)
    case Order(key, needsValue) => StepOrder(WithEntry(s, key), key, needsValue)
    case VisitProvider(key, needsValue) => StepVisit(Entered(s, key), key, needsValue)
  }

  /** A task goes on, or hosts are forgotten. */
  ghost function StepProgress(s: State, event: Event): (r: (State, Outcome))
    requires Linked(s) && !Arrives(event)
  {
    match event
    case BackgroundRuns(id) => if id in s.tasks && s.tasks[id].Queued? then (StepBackground(s, id), Done) else (s, Ignored)
    case FetchEnds(id, answer) =>
      if id in s.tasks && s.tasks[id].Fetching? then StepFetched(s, id, answer) else (s, Ignored)
    case DeliveryEnds(id, ok) =>
      if id in s.tasks && s.tasks[id].Delivering? then StepDelivered(s, id, ok) else (s, Ignored)
    case Callback(id) => if id in s.tasks && s.tasks[id].Ended? then (StepCallback(s, id), Done) else (s, Ignored)
    case Cancel(id) =>
      if id in s.tasks && !IsBackground(s.tasks[id]) then (s.(tasks := s.tasks - {id}), Done) else (s, Ignored)
    case Forget(existing) => (s.(current := map k | k in s.current && k.host in existing :: s.current[k]), Done)
  }

  /** One step. An event that names a task that does not wait for it is no step of the program, and changes nothing. */
  ghost function Step(before: State, m: Moment): (r: (State, Outcome))
    requires Linked(before)
  {
    var s := Tick(before, m.elapsed);
    if Arrives(m.event) then StepArrival(s, m.event) else StepProgress(s, m.event)
  }

  // ---- What every step keeps ----

  /** What an entry holds was fetched after the entry was created; its `fetching` is a background task of its own. */
  predicate EntryOk(s: State, e: EntryId)
    requires e in s.entries
  {
    var entry := s.entries[e];
    && entry.Ok() && e <= s.step
    && (entry.latest.Some? ==> e <= entry.latest.value.begun <= s.step)
    && (entry.fetching.Some? ==>
          entry.fetching.value in s.tasks && IsBackground(s.tasks[entry.fetching.value])
          && s.tasks[entry.fetching.value].entry == e)
  }

  predicate TaskOk(s: State, id: TaskId)
    requires id in s.tasks
  {
    var task := s.tasks[id];
    && id <= s.step && task.entry in s.entries && task.entry <= id
    && (IsBackground(task) ==> s.entries[task.entry].fetching == Some(id))
    && (task.Fetching? ==> id <= task.begun <= s.step && (task.purpose.ToServe? ==> task.begun == id))
    && (task.Delivering? ==> task.secret.IsValid(task.pushBegun))
  }

  ghost predicate Ok(s: State) {
    && (forall e :: e in s.entries ==> EntryOk(s, e))
    && (forall t :: t in s.tasks ==> TaskOk(s, t))
    && (forall k :: k in s.current ==> s.current[k] in s.entries)
  }

  lemma OkIsLinked(s: State)
    requires Ok(s)
    ensures Linked(s)
  {
    forall t | t in s.tasks
      ensures s.tasks[t].entry in s.entries
    {
      assert TaskOk(s, t);
    }
  }

  function Start(now: Time): (s: State) {
    State(now, 0, map[], map[], map[])
  }

  lemma TickOk(s: State, elapsed: nat)
    requires Ok(s)
    ensures Ok(Tick(s, elapsed)) && Tick(s, elapsed).step !in s.entries && Tick(s, elapsed).step !in s.tasks
  {
    var t := Tick(s, elapsed);
    forall e | e in t.entries
      ensures EntryOk(t, e)
    {
      assert EntryOk(s, e);
    }
    forall id | id in t.tasks
      ensures TaskOk(t, id)
    {
      assert TaskOk(s, id);
    }
  }

  lemma WithEntryOk(s: State, key: Key)
    requires Ok(s) && s.step !in s.entries
    ensures Ok(WithEntry(s, key))
  {
    var t := WithEntry(s, key);
    forall e | e in t.entries
      ensures EntryOk(t, e)
    {
      assert e != s.step ==> EntryOk(s, e);
    }
    forall id | id in t.tasks
      ensures TaskOk(t, id)
    {
      assert TaskOk(s, id);
    }
  }

  /** One task and its entry change; every other entry and task is as it was. */
  ghost predicate OneChange(s: State, t: State, e: EntryId, id: TaskId) {
    && t.now == s.now && t.step == s.step && t.current == s.current
    && e in s.entries && t.entries.Keys == s.entries.Keys
    && (forall f :: f in s.entries && f != e ==> t.entries[f] == s.entries[f])
    && (forall u :: u != id ==> (u in t.tasks <==> u in s.tasks) && (u in t.tasks ==> t.tasks[u] == s.tasks[u]))
    && (id in s.tasks ==> s.tasks[id].entry == e)
    && (id in t.tasks ==> t.tasks[id].entry == e)
  }

  lemma OneChangeOk(s: State, t: State, e: EntryId, id: TaskId)
    requires Ok(s) && OneChange(s, t, e, id) && EntryOk(t, e) && (id in t.tasks ==> TaskOk(t, id))
    requires t.entries[e].fetching == s.entries[e].fetching || s.entries[e].fetching in {None, Some(id)}
    ensures Ok(t)
  {
    hide Backoff;
    forall f | f in t.entries
      ensures EntryOk(t, f)
    {
      if f != e {
        assert EntryOk(s, f);
      }
    }
    forall u | u in t.tasks
      ensures TaskOk(t, u)
    {
      if u != id {
        assert TaskOk(s, u);
      }
    }
  }

  // ---- Each step keeps it ----

  lemma BeginFetchOk(s: State, e: EntryId, key: Key, purpose: Purpose)
    requires Ok(s) && e in s.entries && s.step !in s.tasks && !purpose.InBackground?
    ensures Ok(BeginFetch(s, e, key, purpose))
  {
    hide Backoff;
    assert EntryOk(s, e);
    if MayFetch(s, e) {
      OneChangeOk(s, BeginFetch(s, e, key, purpose), e, s.step);
    }
  }

  lemma RefreshInBackgroundOk(s: State, e: EntryId, key: Key)
    requires Ok(s) && e in s.entries && s.step !in s.tasks
    ensures Ok(RefreshInBackground(s, e, key))
  {
    hide Backoff;
    assert EntryOk(s, e);
    if s.entries[e].fetching.None? {
      OneChangeOk(s, RefreshInBackground(s, e, key), e, s.step);
    }
  }

  lemma HandOverOk(s: State, id: TaskId, e: EntryId, key: Key, pushBegun: Time, byOrder: bool)
    requires Ok(s) && e in s.entries && e <= id <= s.step
    requires id in s.tasks ==> s.tasks[id].entry == e && !IsBackground(s.tasks[id])
    ensures Ok(HandOver(s, id, e, key, pushBegun, byOrder).0)
  {
    hide Backoff;
    assert EntryOk(s, e);
    OneChangeOk(s, HandOver(s, id, e, key, pushBegun, byOrder).0, e, id);
  }

  lemma StartPushOk(s: State, e: EntryId, key: Key, byOrder: bool)
    requires Ok(s) && e in s.entries && s.step !in s.tasks
    ensures Ok(StartPush(s, e, key, byOrder).0)
  {
    assert EntryOk(s, e);
    BeginFetchOk(s, e, key, ToPush(s.now, byOrder));
    HandOverOk(s, s.step, e, key, s.now, byOrder);
  }

  lemma StepCallOk(s: State, key: Key)
    requires Ok(s) && key in s.current && s.step !in s.tasks
    ensures Ok(StepCall(s, key).0)
  {
    RefreshInBackgroundOk(s, s.current[key], key);
    BeginFetchOk(s, s.current[key], key, ToServe);
  }

  lemma LearnedOk(s: State, id: TaskId, answer: Answer)
    requires Ok(s) && id in s.tasks && s.tasks[id].Fetching?
    ensures s.tasks[id].entry in s.entries && Ok(LearnedIn(s, id, answer))
  {
    hide Backoff;
    assert TaskOk(s, id);
    assert EntryOk(s, s.tasks[id].entry);
    OneChangeOk(s, LearnedIn(s, id, answer), s.tasks[id].entry, id);
  }

  lemma AfterFetchOk(s: State, id: TaskId)
    requires Ok(s) && id in s.tasks && s.tasks[id].Fetching?
    ensures s.tasks[id].entry in s.entries && Ok(AfterFetch(s, id).0)
  {
    var task := s.tasks[id];
    assert TaskOk(s, id);
    assert EntryOk(s, task.entry);
    match task.purpose
    case ToPush(pushBegun, byOrder) => HandOverOk(s, id, task.entry, task.key, pushBegun, byOrder);
    case _ => OneChangeOk(s, AfterFetch(s, id).0, task.entry, id);
  }

  lemma StepFetchedOk(s: State, id: TaskId, answer: Answer)
    requires Ok(s) && id in s.tasks && s.tasks[id].Fetching?
    ensures s.tasks[id].entry in s.entries && Ok(StepFetched(s, id, answer).0)
  {
    LearnedOk(s, id, answer);
    hide Ok;
    AfterFetchOk(LearnedIn(s, id, answer), id);
  }

  lemma StepDeliveredOk(s: State, id: TaskId, ok: bool)
    requires Ok(s) && id in s.tasks && s.tasks[id].Delivering?
    ensures s.tasks[id].entry in s.entries && Ok(StepDelivered(s, id, ok).0)
  {
    hide Backoff;
    assert TaskOk(s, id);
    assert EntryOk(s, s.tasks[id].entry);
    OneChangeOk(s, StepDelivered(s, id, ok).0, s.tasks[id].entry, id);
  }

  lemma StepBackgroundOk(s: State, id: TaskId)
    requires Ok(s) && id in s.tasks && s.tasks[id].Queued?
    ensures s.tasks[id].entry in s.entries && Ok(StepBackground(s, id))
  {
    hide Backoff;
    assert TaskOk(s, id);
    assert EntryOk(s, s.tasks[id].entry);
    OneChangeOk(s, StepBackground(s, id), s.tasks[id].entry, id);
  }

  lemma StepCallbackOk(s: State, id: TaskId)
    requires Ok(s) && id in s.tasks && s.tasks[id].Ended?
    ensures s.tasks[id].entry in s.entries && Ok(StepCallback(s, id))
  {
    hide Backoff;
    assert TaskOk(s, id);
    assert EntryOk(s, s.tasks[id].entry);
    OneChangeOk(s, StepCallback(s, id), s.tasks[id].entry, id);
  }

  lemma DropTaskOk(s: State, id: TaskId)
    requires Ok(s) && id in s.tasks && !IsBackground(s.tasks[id])
    ensures Ok(s.(tasks := s.tasks - {id}))
  {
    assert TaskOk(s, id);
    assert EntryOk(s, s.tasks[id].entry);
    OneChangeOk(s, s.(tasks := s.tasks - {id}), s.tasks[id].entry, id);
  }

  lemma ForgetOk(s: State, existing: set<nat>)
    requires Ok(s)
    ensures Ok(s.(current := map k | k in s.current && k.host in existing :: s.current[k]))
  {
    var t := s.(current := map k | k in s.current && k.host in existing :: s.current[k]);
    forall e | e in t.entries
      ensures EntryOk(t, e)
    {
      assert EntryOk(s, e);
    }
    forall u | u in t.tasks
      ensures TaskOk(t, u)
    {
      assert TaskOk(s, u);
    }
  }

  lemma StepOk(before: State, m: Moment)
    requires Ok(before)
    ensures Linked(before) && Ok(Step(before, m).0)
  {
    OkIsLinked(before);
    TickOk(before, m.elapsed);
    hide Ok, StepArrival, StepProgress;
    var s := Tick(before, m.elapsed);
    OkIsLinked(s);
    if Arrives(m.event) {
      ArrivalOk(s, m.event);
    } else {
      ProgressOk(s, m.event);
    }
  }

  lemma ArrivalOk(s: State, event: Event)
    requires Ok(s) && Linked(s) && Arrives(event) && s.step !in s.entries && s.step !in s.tasks
    ensures Ok(StepArrival(s, event).0)
  {
    hide Ok, StepCall, StepVisit, StepOrder, WithEntry;
    match event
    case Call(key) =>
      EnteredOk(s, key);
      StepCallOk(Entered(s, key), key);
    case Order(key, needsValue) =>
      EnteredFresh(s, key);
      StepOrderOk(WithEntry(s, key), key, needsValue);
    case VisitProvider(key, needsValue) =>
      EnteredOk(s, key);
      StepVisitOk(Entered(s, key), key, needsValue);
  }

  lemma ProgressOk(s: State, event: Event)
    requires Ok(s) && Linked(s) && !Arrives(event)
    ensures Ok(StepProgress(s, event).0)
  {
    hide Ok, StepFetched, StepDelivered, StepBackground, StepCallback;
    match event
    case BackgroundRuns(id) =>
      if id in s.tasks && s.tasks[id].Queued? {
        StepBackgroundOk(s, id);
      }
    case FetchEnds(id, answer) =>
      if id in s.tasks && s.tasks[id].Fetching? {
        StepFetchedOk(s, id, answer);
      }
    case DeliveryEnds(id, ok) =>
      if id in s.tasks && s.tasks[id].Delivering? {
        StepDeliveredOk(s, id, ok);
      }
    case Callback(id) =>
      if id in s.tasks && s.tasks[id].Ended? {
        StepCallbackOk(s, id);
      }
    case Cancel(id) =>
      if id in s.tasks && !IsBackground(s.tasks[id]) {
        DropTaskOk(s, id);
      }
    case Forget(existing) => ForgetOk(s, existing);
  }

  lemma EnteredFresh(s: State, key: Key)
    requires Ok(s) && s.step !in s.entries && s.step !in s.tasks
    ensures var t := WithEntry(s, key); Ok(t) && key in t.current && t.current[key] in t.entries && t.step !in t.tasks
  {
    WithEntryOk(s, key);
  }

  lemma EnteredOk(s: State, key: Key)
    requires Ok(s) && s.step !in s.entries && s.step !in s.tasks
    ensures var t := Entered(s, key); Ok(t) && t.current[key] in t.entries && t.step !in t.tasks
  {
    WithEntryOk(s, key);
  }

  lemma StepVisitOk(s: State, key: Key, needsValue: bool)
    requires Ok(s) && key in s.current && s.step !in s.tasks
    ensures Ok(StepVisit(s, key, needsValue).0)
  {
    StartPushOk(s, s.current[key], key, false);
  }

  lemma StepOrderOk(s: State, key: Key, needsValue: bool)
    requires Ok(s) && key in s.current && s.step !in s.tasks
    ensures Ok(StepOrder(s, key, needsValue).0)
  {
    StartPushOk(s, s.current[key], key, true);
    BeginFetchOk(s, s.current[key], key, ToHold);
  }
}
