/** Where a served value comes from, and when the exchange asks for a new one. */
module SecretsOrigins {
  import opened Wrappers
  import opened RefreshableSecrets
  import opened SecretsProtocol
  import opened SecretsSchedules

  // ---- Where a value comes from ----

  /** The secret holds what the issuer answered at `now`: its value, and its expiry or the end of the lifetime. */
  predicate HoldsAnswer(secret: Secret, answer: Answer, now: Time) {
    && answer.Answered? && secret.value == answer.value
    && (answer.expiresAt.Some? ==> secret.expiresAt == answer.expiresAt)
    && (answer.expiresAt.None? ==> secret.expiresAt == Some(now + answer.lifetime))
  }

  /** The fetch of a task with this entry ends in the event, and brings the secret. */
  predicate Brings(s: State, event: Event, now: Time, e: EntryId, secret: Secret) {
    && event.FetchEnds? && event.id in s.tasks && s.tasks[event.id].Fetching? && s.tasks[event.id].entry == e
    && s.tasks[event.id].begun == secret.begun && HoldsAnswer(secret, event.answer, now)
  }

  /** What one step does to the keys, the tasks and the values held. */
  ghost predicate TraceStep(s: State, t: State, event: Event) {
    && (forall key :: key in t.current ==>
          || (key in s.current && t.current[key] == s.current[key])
          || (t.current[key] == t.step && Arrives(event) && event.key == key))
    && (forall u :: u in t.tasks ==>
          || (u in s.tasks && t.tasks[u].entry == s.tasks[u].entry && t.tasks[u].key == s.tasks[u].key)
          || (t.tasks[u].key in t.current && t.tasks[u].entry == t.current[t.tasks[u].key]))
    && (forall e :: e in t.entries && t.entries[e].latest.Some? ==>
          || (e in s.entries && t.entries[e].latest == s.entries[e].latest)
          || Brings(s, event, t.now, e, t.entries[e].latest.value))
  }

  /** The step moves only tasks of the entry of the key, and the entries keep their values. */
  ghost predicate KeyStep(s: State, t: State, key: Key) {
    && key in s.current && t.now == s.now && t.step == s.step && t.current == s.current
    && t.entries.Keys == s.entries.Keys && (forall e :: e in s.entries ==> t.entries[e].latest == s.entries[e].latest)
    && (forall u :: u in t.tasks ==>
          (u in s.tasks && t.tasks[u] == s.tasks[u]) || (t.tasks[u].entry == s.current[key] && t.tasks[u].key == key))
  }

  lemma CallTraces(s: State, key: Key)
    requires key in s.current && s.current[key] in s.entries
    ensures KeyStep(s, StepCall(s, key).0, key)
  {
  }

  lemma PushTraces(s: State, key: Key, byOrder: bool)
    requires key in s.current && s.current[key] in s.entries
    ensures KeyStep(s, s, key) && KeyStep(s, StartPush(s, s.current[key], key, byOrder).0, key)
    ensures KeyStep(s, BeginFetch(s, s.current[key], key, ToHold), key)
  {
  }

  lemma KeyStepTraces(s: State, u: State, t: State, event: Event)
    requires Linked(s) && Arrives(event) && s.step !in s.entries && KeyStep(u, t, event.key)
    requires u == s || u == WithEntry(s, event.key)
    ensures TraceStep(s, t, event)
  {
    hide NewEntry, Brings;
    NewHasNothing(s.now);
  }

  lemma ArrivalTraces(s: State, event: Event)
    requires Linked(s) && Arrives(event) && s.step !in s.entries
    ensures TraceStep(s, StepArrival(s, event).0, event) && StepArrival(s, event).0.now == s.now
    ensures StepArrival(s, event).0.step == s.step
  {
    hide StepCall, StartPush, BeginFetch, NewEntry, TraceStep;
    var key := event.key;
    var u := if event.Order? then WithEntry(s, key) else Entered(s, key);
    CallTraces(u, key);
    PushTraces(u, key, event.Order?);
    KeyStepTraces(s, u, StepArrival(s, event).0, event);
  }

  lemma NewHasNothing(now: Time)
    ensures NewEntry(now).latest.None?
  {
  }

  lemma ProgressTraces(s: State, event: Event)
    requires Linked(s) && !Arrives(event)
    ensures TraceStep(s, StepProgress(s, event).0, event) && StepProgress(s, event).0.now == s.now
    ensures StepProgress(s, event).0.step == s.step
  {
    hide StepFetched;
    if event.FetchEnds? && event.id in s.tasks && s.tasks[event.id].Fetching? {
      FetchTraces(s, event.id, event.answer);
    }
  }

  lemma FetchTraces(s: State, id: TaskId, answer: Answer)
    requires Linked(s) && id in s.tasks && s.tasks[id].Fetching?
    ensures var t := StepFetched(s, id, answer).0;
            TraceStep(s, t, FetchEnds(id, answer)) && t.now == s.now && t.step == s.step
  {
    LearnedHolds(s.entries[s.tasks[id].entry], s.now, answer, s.tasks[id].begun);
    hide Learned, Received, HoldsAnswer;
  }

  lemma LearnedHolds(e: Entry, now: Time, answer: Answer, begun: nat)
    ensures var latest := Learned(e, now, Received(answer, begun, now)).latest;
            || latest == e.latest
            || (latest.Some? && latest.value.begun == begun && HoldsAnswer(latest.value, answer, now))
  {
  }

  lemma StepTraces(s: State, m: Moment)
    requires Ok(s) && Linked(s)
    ensures TraceStep(s, Step(s, m).0, m.event) && Step(s, m).0.step == s.step + 1
  {
    TickOk(s, m.elapsed);
    hide Ok, StepArrival, StepProgress;
    var t := Tick(s, m.elapsed);
    if Arrives(m.event) {
      ArrivalTraces(t, m.event);
    } else {
      ProgressTraces(t, m.event);
    }
  }

  /** The entry was made for the key. */
  predicate MadeFor(moments: seq<Moment>, n: nat, e: EntryId, key: Key)
    requires n <= |moments|
  {
    1 <= e <= n && Arrives(moments[e - 1].event) && moments[e - 1].event.key == key
  }

  ghost predicate BroughtBy(start: Time, moments: seq<Moment>, k: nat, e: EntryId, secret: Secret)
    requires k < |moments|
  {
    Brings(StateAt(start, moments, k), moments[k].event, StateAt(start, moments, k + 1).now, e, secret)
  }

  ghost predicate Keyed(s: State, moments: seq<Moment>, n: nat)
    requires n <= |moments|
  {
    && s.step == n
    && (forall key :: key in s.current ==> MadeFor(moments, n, s.current[key], key))
    && (forall u :: u in s.tasks ==> MadeFor(moments, n, s.tasks[u].entry, s.tasks[u].key))
  }

  ghost predicate Held(start: Time, moments: seq<Moment>, n: nat)
    requires n <= |moments|
  {
    var s := StateAt(start, moments, n);
    forall e :: e in s.entries && s.entries[e].latest.Some? ==>
      exists k :: 0 <= k < n && BroughtBy(start, moments, k, e, s.entries[e].latest.value)
  }

  /** Every key and task has an entry made for its key, and every value held was brought by a fetch. */
  ghost predicate Traced(start: Time, moments: seq<Moment>, n: nat)
    requires n <= |moments|
  {
    Keyed(StateAt(start, moments, n), moments, n) && Held(start, moments, n)
  }

  lemma KeyedOn(s: State, t: State, moments: seq<Moment>, n: nat)
    requires n < |moments| && Keyed(s, moments, n) && TraceStep(s, t, moments[n].event) && t.step == s.step + 1
    ensures Keyed(t, moments, n + 1)
  {
    hide Brings;
    forall key | key in t.current
      ensures MadeFor(moments, n + 1, t.current[key], key)
    {
    }
  }

  lemma {:induction false} RunTraces(start: Time, moments: seq<Moment>, n: nat)
    requires n <= |moments|
    ensures Traced(start, moments, n)
  {
    hide Step, TraceStep, Keyed, Held;
    if n == 0 {
      StartTraced(start, moments);
    } else {
      RunTraces(start, moments, n - 1);
      StepTraces(StateAt(start, moments, n - 1), moments[n - 1]);
      StateAfter(start, moments, n - 1);
      KeyedOn(StateAt(start, moments, n - 1), StateAt(start, moments, n), moments, n - 1);
      HeldOn(start, moments, n - 1);
    }
  }

  lemma StartTraced(start: Time, moments: seq<Moment>)
    ensures Traced(start, moments, 0)
  {
    hide Step;
    assert StateAt(start, moments, 0) == Start(start);
  }

  lemma HeldOn(start: Time, moments: seq<Moment>, n: nat)
    requires n < |moments| && Held(start, moments, n)
    requires TraceStep(StateAt(start, moments, n), StateAt(start, moments, n + 1), moments[n].event)
    ensures Held(start, moments, n + 1)
  {
    hide StateAt, Brings, MadeFor;
    var s, t := StateAt(start, moments, n), StateAt(start, moments, n + 1);
    forall e | e in t.entries && t.entries[e].latest.Some?
      ensures exists k :: 0 <= k < n + 1 && BroughtBy(start, moments, k, e, t.entries[e].latest.value)
    {
      if e in s.entries && t.entries[e].latest == s.entries[e].latest {
        var k :| 0 <= k < n && BroughtBy(start, moments, k, e, s.entries[e].latest.value);
      } else {
        assert BroughtBy(start, moments, n, e, t.entries[e].latest.value);
      }
    }
  }

  lemma OnlyFetchesServe(s: State, id: TaskId, ok: bool)
    requires Linked(s)
    ensures !StepProgress(s, DeliveryEnds(id, ok)).1.Served?
  {
  }

  /** Which value a served step took, and from which entry. */
  lemma ServedHolds(s: State, m: Moment)
    requires Ok(s) && Linked(s) && Step(s, m).1.Served?
    ensures var (t, o) := Step(s, m);
            && (o.secret.expiresAt.Some? ==> t.now < o.secret.expiresAt.value)
            && ((m.event.Call? && m.event.key == o.key && o.key in t.current && t.current[o.key] in t.entries
                 && t.entries[t.current[o.key]].latest == Some(o.secret))
                || (m.event.FetchEnds? && m.event.id in s.tasks && s.tasks[m.event.id].key == o.key
                    && s.tasks[m.event.id].entry in t.entries
                    && t.entries[s.tasks[m.event.id].entry].latest == Some(o.secret)))
  {
    OkIsLinked(s);
    TickOk(s, m.elapsed);
    hide Ok, StepOrder, StepVisit, StepDelivered, NewEntry, Learned, Received;
    var u := Tick(s, m.elapsed);
    match m.event
    case Order(key, needsValue) => NothingServed(WithEntry(u, key), key, needsValue);
    case VisitProvider(key, needsValue) => NothingServed(Entered(u, key), key, needsValue);
    case DeliveryEnds(id, ok) => OnlyFetchesServe(u, id, ok);
    case _ =>
  }

  /** Whatever `current` returns was answered to a fetch for the same key, and is served before it expires: before the expiry
      that the issuer stated, or before the end of the lifetime that counts from the answer. */
  lemma ServedComesFromAFetch(start: Time, moments: seq<Moment>, i: nat)
    requires i < |moments| && OutcomeAt(start, moments, i).Served?
    ensures var o, now := OutcomeAt(start, moments, i), StateAt(start, moments, i + 1).now;
            exists k :: 0 <= k <= i && moments[k].event.FetchEnds?
                        && var (s, id, answer) := (StateAt(start, moments, k), moments[k].event.id, moments[k].event.answer);
                        && id in s.tasks && s.tasks[id].Fetching? && s.tasks[id].key == o.key
                        && s.tasks[id].begun == o.secret.begun
                        && answer.Answered? && o.secret.value == answer.value
                        && now < (if answer.expiresAt.Some? then answer.expiresAt.value
                                  else StateAt(start, moments, k + 1).now + answer.lifetime)
  {
    hide Step, StateAt, Traced, MadeFor, BroughtBy;
    StateAfter(start, moments, i);
    ServedHolds(StateAt(start, moments, i), moments[i]);
    var e := ServedEntry(start, moments, i);
    var k := LatestIsBrought(start, moments, i + 1, e);
    BroughtForKey(start, moments, i + 1, k, e, OutcomeAt(start, moments, i).key, OutcomeAt(start, moments, i).secret);
  }

  /** The entry that a served step took the value from is one of the key. */
  lemma ServedEntry(start: Time, moments: seq<Moment>, i: nat) returns (e: EntryId)
    requires i < |moments| && OutcomeAt(start, moments, i).Served?
    ensures var (t, o) := (StateAt(start, moments, i + 1), OutcomeAt(start, moments, i));
            e in t.entries && t.entries[e].latest == Some(o.secret) && MadeFor(moments, i + 1, e, o.key)
  {
    hide Step, StateAt;
    KeyedAt(start, moments, i);
    KeyedAt(start, moments, i + 1);
    StateAfter(start, moments, i);
    ServedHolds(StateAt(start, moments, i), moments[i]);
    e := if moments[i].event.Call? then StateAt(start, moments, i + 1).current[OutcomeAt(start, moments, i).key]
         else StateAt(start, moments, i).tasks[moments[i].event.id].entry;
  }

  lemma KeyedAt(start: Time, moments: seq<Moment>, n: nat)
    requires n <= |moments|
    ensures Keyed(StateAt(start, moments, n), moments, n)
  {
    hide Step, StateAt, Keyed, Held;
    RunTraces(start, moments, n);
  }

  lemma LatestIsBrought(start: Time, moments: seq<Moment>, n: nat, e: EntryId) returns (k: nat)
    requires n <= |moments| && e in StateAt(start, moments, n).entries
    requires StateAt(start, moments, n).entries[e].latest.Some?
    ensures k < n && BroughtBy(start, moments, k, e, StateAt(start, moments, n).entries[e].latest.value)
  {
    hide Step, StateAt, BroughtBy, Keyed;
    RunTraces(start, moments, n);
    k :| 0 <= k < n && BroughtBy(start, moments, k, e, StateAt(start, moments, n).entries[e].latest.value);
  }

  /** The fetch that brought a value to an entry was for the key of the entry. */
  lemma BroughtForKey(start: Time, moments: seq<Moment>, n: nat, k: nat, e: EntryId, key: Key, secret: Secret)
    requires k < n <= |moments| && MadeFor(moments, n, e, key) && BroughtBy(start, moments, k, e, secret)
    ensures moments[k].event.FetchEnds?
    ensures var (s, id, answer) := (StateAt(start, moments, k), moments[k].event.id, moments[k].event.answer);
            && id in s.tasks && s.tasks[id].Fetching? && s.tasks[id].key == key && s.tasks[id].begun == secret.begun
            && HoldsAnswer(secret, answer, StateAt(start, moments, k + 1).now)
  {
    hide Step, StateAt;
    KeyedAt(start, moments, k);
    assert MadeFor(moments, k, e, StateAt(start, moments, k).tasks[moments[k].event.id].key);
  }

  // ---- When the exchange asks for a new value ----

  /** Within a minute of its end. */
  predicate NearEnd(secret: Option<Secret>, now: Time) {
    secret.Some? && secret.value.expiresAt.Some? && now >= secret.value.expiresAt.value - 60_000_000
  }

  lemma CallRefreshes(s: State, key: Key)
    requires Linked(s) && key in s.current && s.entries[s.current[key]].HoldsValid(s.now)
    ensures var e, t := s.current[key], StepArrival(s, Call(key)).0;
            && (NearEnd(s.entries[e].latest, s.now) ==> e in t.entries && t.entries[e].fetching.Some?)
            && (!NearEnd(s.entries[e].latest, s.now) ==> t == s)
  {
  }

  /** A value that is served within a minute of its end is being fetched again in the background, by a task of its entry; one
      that is served earlier starts nothing. */
  lemma ServedNearItsEndIsRefreshed(start: Time, moments: seq<Moment>, i: nat)
    requires i < |moments| && moments[i].event.Call?
    requires var s, key := StateAt(start, moments, i), moments[i].event.key;
             key in s.current && s.entries[s.current[key]].HoldsValid(StateAt(start, moments, i + 1).now)
    ensures var (s, t) := (StateAt(start, moments, i), StateAt(start, moments, i + 1));
            var e := s.current[moments[i].event.key];
            && (NearEnd(s.entries[e].latest, t.now) ==>
                  exists u :: u in t.tasks && t.tasks[u].entry == e && IsBackground(t.tasks[u]))
            && (!NearEnd(s.entries[e].latest, t.now) ==> t.tasks == s.tasks && t.entries == s.entries)
  {
    var (s, t) := (StateAt(start, moments, i), StateAt(start, moments, i + 1));
    hide StateAt, Ok, StepArrival;
    StateAfter(start, moments, i);
    TickOk(s, moments[i].elapsed);
    OkIsLinked(Tick(s, moments[i].elapsed));
    ArrivalIsNow(Tick(s, moments[i].elapsed), moments[i].event);
    var e := s.current[moments[i].event.key];
    CallRefreshes(Tick(s, moments[i].elapsed), moments[i].event.key);
    if NearEnd(s.entries[e].latest, t.now) {
      FetchingIsBackground(t, e);
    }
  }

  lemma ArrivalIsNow(s: State, event: Event)
    requires Linked(s) && Arrives(event)
    ensures StepArrival(s, event).0.now == s.now
  {
    hide NewEntry;
  }

  lemma FetchingIsBackground(s: State, e: EntryId)
    requires Ok(s) && e in s.entries && s.entries[e].fetching.Some?
    ensures exists u :: u in s.tasks && s.tasks[u].entry == e && IsBackground(s.tasks[u])
  {
    assert EntryOk(s, e);
  }

  /** What a visit and an order begin. */
  predicate Begins(t: State, key: Key, byOrder: bool) {
    t.step in t.tasks && t.tasks[t.step].key == key
    && ((t.tasks[t.step].Fetching? && t.tasks[t.step].purpose.ToPush? && t.tasks[t.step].purpose.byOrder == byOrder)
        || (t.tasks[t.step].Delivering? && t.tasks[t.step].byOrder == byOrder))
  }

  lemma VisitBegins(s: State, key: Key, needsValue: bool)
    requires Linked(s) && s.step !in s.tasks
    ensures var t := StepArrival(s, VisitProvider(key, needsValue)).0;
            var lacks := key !in s.current
                         || (var entry := s.entries[s.current[key]];
                             s.now >= entry.nextAttempt && (entry.pushed.None? || NearEnd(entry.pushed, s.now)));
            && t.step == s.step
            && (needsValue && lacks ==> Begins(t, key, false))
            && (!needsValue || !lacks ==> t.tasks == s.tasks)
  {
  }

  /** A visit pushes to a provider that needs the value if it has none, or one within a minute of its end, and the wait is
      over. It leaves every other provider alone. */
  lemma VisitsPushWhatIsDue(start: Time, moments: seq<Moment>, i: nat)
    requires i < |moments| && moments[i].event.VisitProvider?
    ensures var (s, t) := (StateAt(start, moments, i), StateAt(start, moments, i + 1));
            var (key, needsValue) := (moments[i].event.key, moments[i].event.needsValue);
            var lacks := key !in s.current
                         || (var entry := s.entries[s.current[key]];
                             t.now >= entry.nextAttempt && (entry.pushed.None? || NearEnd(entry.pushed, t.now)));
            && (needsValue && lacks ==> Begins(t, key, false))
            && (!needsValue || !lacks ==> t.tasks == s.tasks)
  {
    var s := StateAt(start, moments, i);
    hide StateAt, Ok, StepArrival, NearEnd, Begins;
    StateAfter(start, moments, i);
    TickOk(s, moments[i].elapsed);
    OkIsLinked(Tick(s, moments[i].elapsed));
    ArrivalIsNow(Tick(s, moments[i].elapsed), moments[i].event);
    VisitBegins(Tick(s, moments[i].elapsed), moments[i].event.key, moments[i].event.needsValue);
  }

  lemma OrderBegins(s: State, key: Key, needsValue: bool)
    requires Linked(s) && s.step !in s.tasks
    ensures var t := StepArrival(s, Order(key, needsValue)).0;
            && t.step == s.step && key in t.current && t.current[key] == t.step
            && t.step in t.tasks && t.tasks[t.step].Fetching? && t.tasks[t.step].entry == t.step
            && (if needsValue then t.tasks[t.step].purpose == ToPush(t.now, true) else t.tasks[t.step].purpose == ToHold)
            && StepArrival(s, Order(key, needsValue)).1.Waits?
  {
  }

  /** An order fetches at once, for an entry of its own: whatever was held and however long the wait. It pushes the value to
      a provider that needs it, and holds it otherwise. */
  lemma OrdersFetchAtOnce(start: Time, moments: seq<Moment>, i: nat)
    requires i < |moments| && moments[i].event.Order?
    ensures var (t, key) := (StateAt(start, moments, i + 1), moments[i].event.key);
            && key in t.current && t.current[key] == t.step
            && t.step in t.tasks && t.tasks[t.step].Fetching? && t.tasks[t.step].entry == t.step
            && (if moments[i].event.needsValue then t.tasks[t.step].purpose == ToPush(t.now, true)
                else t.tasks[t.step].purpose == ToHold)
            && OutcomeAt(start, moments, i).Waits?
  {
    var s := StateAt(start, moments, i);
    hide StateAt, Ok, StepArrival;
    StateAfter(start, moments, i);
    TickOk(s, moments[i].elapsed);
    OkIsLinked(Tick(s, moments[i].elapsed));
    OrderBegins(Tick(s, moments[i].elapsed), moments[i].event.key, moments[i].event.needsValue);
  }

  /** How an order ends, by what its task held before. When its fetch ends, a value that was valid as it began and that the
      provider lacks is on its way; a value that is only to be held is enough to be done; otherwise the order raises. When its
      delivery ends, it is done if and only if the provider took the value. */
  ghost predicate EndsOrder(task: Task<EntryId>, id: TaskId, event: Event, t: State, o: Outcome) {
    && (event.FetchEnds? && event.id == id && task.Fetching? && task.purpose.ToHold? ==>
          task.entry in t.entries && o == (if t.entries[task.entry].latest.Some? then Done else IssuerUnavailable))
    && (event.FetchEnds? && event.id == id && task.Fetching? && task.purpose.ToPush? && task.purpose.byOrder ==>
          && task.entry in t.entries
          && var (latest, pushed) := (t.entries[task.entry].latest, t.entries[task.entry].pushed);
          if latest.Some? && latest != pushed
             && (latest.value.expiresAt.None? || task.purpose.pushBegun < latest.value.expiresAt.value)
          then o.Waits? && id in t.tasks && t.tasks[id].Delivering? && Some(t.tasks[id].secret) == latest
          else o.IssuerUnavailable? && id !in t.tasks)
    && (event.DeliveryEnds? && event.id == id && task.Delivering? ==>
          o == (if event.ok then Done else Outcome.ProviderFailed) && id !in t.tasks)
  }

  lemma OrdersAreAnswered(start: Time, moments: seq<Moment>, i: nat, id: TaskId)
    requires i < |moments| && id in StateAt(start, moments, i).tasks
    ensures EndsOrder(StateAt(start, moments, i).tasks[id], id, moments[i].event, StateAt(start, moments, i + 1),
                      OutcomeAt(start, moments, i))
  {
    var s, m := StateAt(start, moments, i), moments[i];
    hide StateAt, Ok, StepArrival;
    StateAfter(start, moments, i);
    if !Arrives(m.event) {
      TickOk(s, m.elapsed);
      OkIsLinked(Tick(s, m.elapsed));
      EndAnswers(Tick(s, m.elapsed), m.event, id);
    }
  }

  lemma EndAnswers(s: State, event: Event, id: TaskId)
    requires Linked(s) && !Arrives(event) && id in s.tasks
    ensures EndsOrder(s.tasks[id], id, event, StepProgress(s, event).0, StepProgress(s, event).1)
  {
    hide Learned, Received, Delivered;
  }
}
