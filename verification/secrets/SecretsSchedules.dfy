/** What holds over every schedule of the exchange, whatever overlaps. */
module SecretsSchedules {
  import opened Wrappers
  import opened RefreshableSecrets
  import opened SecretsProtocol

  /** The exchange after the first `i` moments of a schedule. */
  ghost function StateAt(start: Time, moments: seq<Moment>, i: nat): (s: State)
    requires i <= |moments|
    ensures Ok(s) && Linked(s)
  {
    if i == 0 then Start(start)
    else
      var before := StateAt(start, moments, i - 1);
      StepOk(before, moments[i - 1]);
      OkIsLinked(Step(before, moments[i - 1]).0);
      Step(before, moments[i - 1]).0
  }

  /** What the program does at moment `i`. */
  ghost function OutcomeAt(start: Time, moments: seq<Moment>, i: nat): (o: Outcome)
    requires i < |moments|
  {
    Step(StateAt(start, moments, i), moments[i]).1
  }

  predicate Orders(m: Moment, key: Key) {
    m.event.Order? && m.event.key == key
  }

  // ---- Orders and calls ----

  /** After `n` moments the entry of a key is no older than the last order of the key, and a call in flight waits for an
      entry no older than the last order before it. Moment `k` is step `k + 1`. */
  ghost predicate OrdersKept(s: State, moments: seq<Moment>, n: nat)
    requires n <= |moments|
  {
    && s.step == n
    && (forall k, key :: 0 <= k < n && Orders(moments[k], key) && key in s.current ==> k + 1 <= s.current[key])
    && (forall t :: t in s.tasks ==> CallKept(moments, n, s.tasks[t]))
  }

  predicate CallKept(moments: seq<Moment>, n: nat, task: Task<EntryId>)
    requires n <= |moments|
  {
    task.Fetching? && task.purpose.ToServe? ==>
      task.begun <= n && forall k :: 0 <= k < task.begun - 1 && Orders(moments[k], task.key) ==> k + 1 <= task.entry
  }

  /** How one step may change the entries of the keys and the calls in flight. */
  ghost predicate CallStep(s: State, t: State, m: Moment) {
    && t.step == s.step + 1
    && (forall key :: key in t.current ==> (key in s.current && t.current[key] == s.current[key]) || t.current[key] == t.step)
    && (m.event.Order? ==> m.event.key in t.current && t.current[m.event.key] == t.step)
    && (forall u :: u in t.tasks && t.tasks[u].Fetching? && t.tasks[u].purpose.ToServe? ==>
          || (u in s.tasks && s.tasks[u] == t.tasks[u])
          || (m.event == Call(t.tasks[u].key) && t.tasks[u].begun == t.step
              && t.tasks[u].key in t.current && t.tasks[u].entry == t.current[t.tasks[u].key]))
  }

  predicate IsCall(task: Task<EntryId>) {
    task.Fetching? && task.purpose.ToServe?
  }

  /** No task is a new call, and the keys keep their entries. */
  ghost predicate NoNewCall(s: State, t: State) {
    && t.step == s.step && t.current == s.current
    && (forall u :: u in t.tasks && IsCall(t.tasks[u]) ==> u in s.tasks && s.tasks[u] == t.tasks[u])
  }

  lemma PushesAreNoCalls(s: State, e: EntryId, key: Key, byOrder: bool)
    requires e in s.entries && s.step !in s.tasks
    ensures NoNewCall(s, StartPush(s, e, key, byOrder).0)
    ensures NoNewCall(s, BeginFetch(s, e, key, ToHold)) && NoNewCall(s, RefreshInBackground(s, e, key))
  {
  }

  lemma EndsAreNoCalls(s: State, id: TaskId)
    requires id in s.tasks && s.tasks[id].entry in s.entries
    ensures s.tasks[id].Fetching? ==> forall answer :: NoNewCall(s, StepFetched(s, id, answer).0)
    ensures s.tasks[id].Delivering? ==> forall ok :: NoNewCall(s, StepDelivered(s, id, ok).0)
    ensures s.tasks[id].Queued? ==> NoNewCall(s, StepBackground(s, id))
    ensures s.tasks[id].Ended? ==> NoNewCall(s, StepCallback(s, id))
    ensures NoNewCall(s, s.(tasks := s.tasks - {id}))
  {
    hide Learned, Delivered, Received;
  }

  lemma CallIsCall(s: State, key: Key)
    requires key in s.current && s.current[key] in s.entries && s.step !in s.tasks
    ensures var t := StepCall(s, key).0;
            && t.step == s.step && t.current == s.current
            && (forall u :: u in t.tasks && IsCall(t.tasks[u]) ==>
                  (u in s.tasks && s.tasks[u] == t.tasks[u])
                  || (t.tasks[u].key == key && t.tasks[u].begun == s.step && t.tasks[u].entry == s.current[key]))
  {
    PushesAreNoCalls(s, s.current[key], key, false);
  }

  lemma ArrivalCalls(s: State, event: Event)
    requires Linked(s) && Arrives(event) && s.step !in s.tasks && s.step > 0
    ensures CallStep(s.(step := s.step - 1), StepArrival(s, event).0, Moment(event, 0))
  {
    hide StepCall, StartPush, BeginFetch, NewEntry;
    match event
    case Call(key) => CallIsCall(Entered(s, key), key);
    case Order(key, _) => PushesAreNoCalls(WithEntry(s, key), s.step, key, true);
    case VisitProvider(key, _) => PushesAreNoCalls(Entered(s, key), Entered(s, key).current[key], key, false);
  }

  lemma ProgressCalls(s: State, event: Event)
    requires Linked(s) && !Arrives(event) && s.step > 0
    ensures CallStep(s.(step := s.step - 1), StepProgress(s, event).0, Moment(event, 0))
  {
    hide StepFetched, StepDelivered, StepBackground, StepCallback;
    match event
    case BackgroundRuns(id) => if id in s.tasks { EndsAreNoCalls(s, id); }
    case FetchEnds(id, answer) => if id in s.tasks { EndsAreNoCalls(s, id); }
    case DeliveryEnds(id, ok) => if id in s.tasks { EndsAreNoCalls(s, id); }
    case Callback(id) => if id in s.tasks { EndsAreNoCalls(s, id); }
    case Cancel(id) => if id in s.tasks { EndsAreNoCalls(s, id); }
    case Forget(_) =>
  }

  lemma StepCalls(s: State, m: Moment)
    requires Ok(s) && Linked(s)
    ensures CallStep(s, Step(s, m).0, m)
  {
    TickOk(s, m.elapsed);
    hide Ok, StepArrival, StepProgress;
    var t := Tick(s, m.elapsed);
    if Arrives(m.event) {
      ArrivalCalls(t, m.event);
    } else {
      ProgressCalls(t, m.event);
    }
  }

  lemma OrdersStayKept(s: State, t: State, moments: seq<Moment>, n: nat)
    requires n < |moments| && OrdersKept(s, moments, n) && CallStep(s, t, moments[n])
    ensures OrdersKept(t, moments, n + 1)
  {
    forall u | u in t.tasks
      ensures CallKept(moments, n + 1, t.tasks[u])
    {
      if u in s.tasks && s.tasks[u] == t.tasks[u] {
        assert CallKept(moments, n, s.tasks[u]);
      }
    }
  }

  lemma {:induction false} RunKeepsOrders(start: Time, moments: seq<Moment>, i: nat)
    requires i <= |moments|
    ensures OrdersKept(StateAt(start, moments, i), moments, i)
  {
    hide Step, CallStep;
    if i == 0 {
      assert StateAt(start, moments, i) == Start(start);
    } else {
      RunKeepsOrders(start, moments, i - 1);
      StepCalls(StateAt(start, moments, i - 1), moments[i - 1]);
      OrdersStayKept(StateAt(start, moments, i - 1), StateAt(start, moments, i), moments, i - 1);
    }
  }

  /** What a served step says about the entry it served from. */
  ghost predicate FromEntry(s: State, t: State, event: Event, o: Outcome)
    requires o.Served?
  {
    && o.secret.IsValid(t.now) && (event.Call? || event.FetchEnds?)
    && (event.Call? ==>
          event.key == o.key && o.called == t.step && o.key in t.current && t.current[o.key] <= o.secret.begun)
    && (event.FetchEnds? ==>
          && event.id in s.tasks && IsCall(s.tasks[event.id])
          && o.key == s.tasks[event.id].key && o.called == s.tasks[event.id].begun
          && s.tasks[event.id].entry <= o.secret.begun)
  }

  lemma ArrivalServes(s: State, event: Event)
    requires Ok(s) && Linked(s) && Arrives(event) && s.step !in s.tasks && s.step !in s.entries
    requires StepArrival(s, event).1.Served?
    ensures FromEntry(s, StepArrival(s, event).0, event, StepArrival(s, event).1)
  {
    hide Ok, EntryOk, StepVisit, StepOrder, BeginFetch, NewEntry;
    match event
    case Call(key) =>
      EnteredOk(s, key);
      EntryAt(Entered(s, key), key);
    case Order(key, needsValue) => NothingServed(WithEntry(s, key), key, needsValue);
    case VisitProvider(key, needsValue) => NothingServed(Entered(s, key), key, needsValue);
  }

  lemma ProgressServes(s: State, event: Event)
    requires Ok(s) && Linked(s) && !Arrives(event) && StepProgress(s, event).1.Served?
    ensures FromEntry(s, StepProgress(s, event).0, event, StepProgress(s, event).1)
  {
    hide Ok, EntryOk, TaskOk, StepDelivered, StepCallback, StepBackground, Learned, Received;
    match event
    case FetchEnds(id, answer) =>
      LearnedOk(s, id, answer);
      LatestAt(LearnedIn(s, id, answer), s.tasks[id].entry);
    case DeliveryEnds(id, ok) => DeliveryServesNothing(s, id, ok);
    case _ =>
  }

  lemma DeliveryServesNothing(s: State, id: TaskId, ok: bool)
    requires Linked(s) && id in s.tasks && s.tasks[id].Delivering?
    ensures !StepDelivered(s, id, ok).1.Served?
  {
  }

  lemma ServedFrom(s: State, m: Moment)
    requires Ok(s) && Linked(s) && Step(s, m).1.Served?
    ensures FromEntry(Tick(s, m.elapsed), Step(s, m).0, m.event, Step(s, m).1)
  {
    TickOk(s, m.elapsed);
    hide Ok, StepArrival, StepProgress, FromEntry;
    OkIsLinked(Tick(s, m.elapsed));
    if Arrives(m.event) {
      ArrivalServes(Tick(s, m.elapsed), m.event);
    } else {
      ProgressServes(Tick(s, m.elapsed), m.event);
    }
  }

  lemma EntryAt(s: State, key: Key)
    requires Ok(s) && key in s.current
    ensures s.current[key] in s.entries
    ensures s.entries[s.current[key]].latest.Some? ==> s.current[key] <= s.entries[s.current[key]].latest.value.begun
  {
    assert EntryOk(s, s.current[key]);
  }

  lemma LatestAt(s: State, e: EntryId)
    requires Ok(s) && e in s.entries
    ensures s.entries[e].latest.Some? ==> e <= s.entries[e].latest.value.begun
  {
    assert EntryOk(s, e);
  }

  lemma NothingServed(s: State, key: Key, needsValue: bool)
    requires key in s.current && s.current[key] in s.entries
    ensures !StepVisit(s, key, needsValue).1.Served? && !StepOrder(s, key, needsValue).1.Served?
  {
  }

  /** Ordered refresh: whatever `current` returns is valid at its last check, and was fetched at or after every order that
      precedes the call, even when an older background fetch ends later. */
  lemma ServedIsFresh(start: Time, moments: seq<Moment>, i: nat)
    requires i < |moments| && OutcomeAt(start, moments, i).Served?
    ensures var o := OutcomeAt(start, moments, i);
            && o.secret.IsValid(StateAt(start, moments, i + 1).now)
            && o.called <= i + 1
            && forall k :: 0 <= k < o.called - 1 && Orders(moments[k], o.key) ==> k + 1 <= o.secret.begun
  {
    hide Step;
    RunKeepsOrders(start, moments, i);
    RunKeepsOrders(start, moments, i + 1);
    ServedAfterOrders(StateAt(start, moments, i), moments, i);
  }

  lemma ServedAfterOrders(s: State, moments: seq<Moment>, i: nat)
    requires i < |moments| && Ok(s) && Linked(s) && Step(s, moments[i]).1.Served?
    requires OrdersKept(s, moments, i) && OrdersKept(Step(s, moments[i]).0, moments, i + 1)
    ensures var (t, o) := Step(s, moments[i]);
            && o.secret.IsValid(t.now) && o.called <= i + 1
            && forall k :: 0 <= k < o.called - 1 && Orders(moments[k], o.key) ==> k + 1 <= o.secret.begun
  {
    ServedFrom(s, moments[i]);
    hide Step;
    if moments[i].event.FetchEnds? {
      assert CallKept(moments, i, s.tasks[moments[i].event.id]);
    }
  }

  // ---- Calls are answered ----

  /** A held valid value is always served, at once and without raising, and each call whose fetch ends is answered: with the
      value its entry then holds, if it is valid. */
  lemma CallsAreAnswered(start: Time, moments: seq<Moment>, i: nat)
    requires i < |moments|
    ensures var s, t, o := StateAt(start, moments, i), StateAt(start, moments, i + 1), OutcomeAt(start, moments, i);
            match moments[i].event
            case Call(key) =>
              var held := key in s.current && s.entries[s.current[key]].HoldsValid(t.now);
              && (held ==> o == Served(key, i + 1, s.entries[s.current[key]].latest.value))
              && (o.Served? ==> held) && (o.Served? || o.Waits? || o.IssuerUnavailable?)
            case FetchEnds(id, answer) =>
              id in s.tasks && IsCall(s.tasks[id]) ==>
                var task := s.tasks[id];
                && task.entry in t.entries && id !in t.tasks
                && (Usable(answer, t.now) ==>
                      o.Served? && o.secret.value == answer.value && o.secret.begun == task.begun)
                && (o == if t.entries[task.entry].HoldsValid(t.now)
                         then Served(task.key, task.begun, t.entries[task.entry].latest.value) else IssuerUnavailable)
            case _ => true
  {
    RunKeepsOrders(start, moments, i);
    var s, m := StateAt(start, moments, i), moments[i];
    hide Ok, OrdersKept, StepOrder, StepVisit, StepDelivered, StepBackground, StepCallback, Delivered, NewEntry;
    if m.event.Call? {
      CallAnswers(Tick(s, m.elapsed), m.event.key);
    } else if m.event.FetchEnds? && m.event.id in s.tasks && IsCall(s.tasks[m.event.id]) {
      FetchAnswers(Tick(s, m.elapsed), m.event.id, m.event.answer);
    }
  }

  lemma CallAnswers(s: State, key: Key)
    requires Linked(s)
    ensures var t := Entered(s, key);
            var (u, o) := StepCall(t, key);
            var held := key in s.current && s.entries[s.current[key]].HoldsValid(s.now);
            && u.now == s.now
            && (held ==> o == Served(key, s.step, s.entries[s.current[key]].latest.value))
            && (o.Served? ==> held) && (o.Served? || o.Waits? || o.IssuerUnavailable?)
  {
  }

  lemma FetchAnswers(s: State, id: TaskId, answer: Answer)
    requires Linked(s) && id in s.tasks && IsCall(s.tasks[id])
    ensures var task := s.tasks[id];
            var (t, o) := StepFetched(s, id, answer);
            && t.now == s.now && task.entry in t.entries && id !in t.tasks
            && (Usable(answer, s.now) ==> o.Served? && o.secret.value == answer.value && o.secret.begun == task.begun)
            && (o == if t.entries[task.entry].HoldsValid(s.now)
                     then Served(task.key, task.begun, t.entries[task.entry].latest.value) else IssuerUnavailable)
  {
    hide Delayed;
  }

  // ---- One background fetch per entry ----

  /** In every state of every schedule the background tasks of one entry object are one task. */
  lemma OneBackgroundTask(start: Time, moments: seq<Moment>, i: nat, t: TaskId, u: TaskId)
    requires i <= |moments|
    requires t in StateAt(start, moments, i).tasks && u in StateAt(start, moments, i).tasks
    requires var s := StateAt(start, moments, i);
             IsBackground(s.tasks[t]) && IsBackground(s.tasks[u]) && s.tasks[t].entry == s.tasks[u].entry
    ensures t == u
  {
    var s := StateAt(start, moments, i);
    assert TaskOk(s, t) && TaskOk(s, u);
    hide StateAt;
  }

  // ---- Backoff ----

  /** An attempt on an entry begins in the step: a fetch asks the issuer, or a push hands a held value over at once. */
  predicate Attempts(t: State, e: EntryId, u: TaskId) {
    && u in t.tasks && t.tasks[u].entry == e
    && ((t.tasks[u].Fetching? && t.tasks[u].begun == t.step) || (t.tasks[u].Delivering? && u == t.step))
  }

  /** No stamp of a task is of the step to come. */
  lemma NoneAttempts(s: State, elapsed: nat, e: EntryId, u: TaskId)
    requires Ok(s)
    ensures !Attempts(Tick(s, elapsed), e, u)
  {
    if u in s.tasks {
      assert TaskOk(s, u);
    }
  }

  lemma PushWaits(s: State, e: EntryId, key: Key, byOrder: bool, f: EntryId, u: TaskId)
    requires e in s.entries && MayFetch(s, e) && !Attempts(s, f, u)
    requires Attempts(StartPush(s, e, key, byOrder).0, f, u)
    ensures f == e && StartPush(s, e, key, byOrder).0.entries == s.entries
  {
  }

  lemma ArrivalWaits(s: State, event: Event, e: EntryId, u: TaskId)
    requires Linked(s) && Arrives(event) && !Attempts(s, e, u) && s.step !in s.entries
    requires Attempts(StepArrival(s, event).0, e, u)
    ensures var t := StepArrival(s, event).0; e in t.entries && t.now >= t.entries[e].nextAttempt
  {
    match event
    case Call(key) =>
    case Order(key, needsValue) =>
      var t := WithEntry(s, key);
      if needsValue {
        PushWaits(t, t.step, key, true, e, u);
        hide StartPush;
      }
    case VisitProvider(key, needsValue) =>
      var t := Entered(s, key);
      if needsValue && t.entries[t.current[key]].IsDue(t.now) {
        PushWaits(t, t.current[key], key, false, e, u);
        hide StartPush;
      }
  }

  lemma ProgressWaits(s: State, event: Event, e: EntryId, u: TaskId)
    requires Linked(s) && !Arrives(event) && !Attempts(s, e, u)
    requires forall id :: id in s.tasks ==> id < s.step && (s.tasks[id].Fetching? ==> s.tasks[id].begun < s.step)
    requires Attempts(StepProgress(s, event).0, e, u)
    ensures var t := StepProgress(s, event).0; e in t.entries && t.now >= t.entries[e].nextAttempt
  {
    hide Learned, Received, Delivered;
  }

  /** Backoff, however attempts overlap: after n failures since the last reset the wait is min(5 * 2^n, 60) seconds, and an
      attempt on the entry starts no sooner than the n-th wait after the n-th failure. */
  lemma AttemptsWait(start: Time, moments: seq<Moment>, i: nat, e: EntryId, u: TaskId)
    requires i < |moments| && Attempts(StateAt(start, moments, i + 1), e, u)
    ensures var t := StateAt(start, moments, i + 1);
            && e in t.entries && t.entries[e].wait == Backoff(t.entries[e].failures)
            && (t.entries[e].failures > 0 ==> t.now >= t.entries[e].lastFailure + Backoff(t.entries[e].failures - 1))
  {
    var before, m := StateAt(start, moments, i), moments[i];
    hide StateAt, Ok, Attempts, StepArrival, StepProgress;
    var s := Tick(before, m.elapsed);
    assert StateAt(start, moments, i + 1) == Step(before, m).0 by { StateAfter(start, moments, i); }
    TickOk(before, m.elapsed);
    NoneAttempts(before, m.elapsed, e, u);
    StampsArePast(before, m.elapsed);
    OkIsLinked(s);
    if Arrives(m.event) {
      ArrivalWaits(s, m.event, e, u);
    } else {
      ProgressWaits(s, m.event, e, u);
    }
    EntryIsOk(StateAt(start, moments, i + 1), e);
  }

  lemma StateAfter(start: Time, moments: seq<Moment>, i: nat)
    requires i < |moments|
    ensures StateAt(start, moments, i + 1) == Step(StateAt(start, moments, i), moments[i]).0
  {
    hide Step;
  }

  lemma StampsArePast(s: State, elapsed: nat)
    requires Ok(s)
    ensures forall id :: id in s.tasks ==> id < s.step + 1 && (s.tasks[id].Fetching? ==> s.tasks[id].begun < s.step + 1)
  {
    forall id | id in s.tasks
      ensures id < s.step + 1 && (s.tasks[id].Fetching? ==> s.tasks[id].begun < s.step + 1)
    {
      assert TaskOk(s, id);
    }
  }

  lemma EntryIsOk(s: State, e: EntryId)
    requires Ok(s) && e in s.entries
    ensures s.entries[e].Ok()
  {
    assert EntryOk(s, e);
  }

  /** What is on its way to a provider was valid when its push began, and `pushed` is always the last value delivered. */
  lemma PushesAreSound(start: Time, moments: seq<Moment>, i: nat)
    requires i <= |moments|
    ensures var s := StateAt(start, moments, i);
            && (forall u :: u in s.tasks && s.tasks[u].Delivering? ==> s.tasks[u].secret.IsValid(s.tasks[u].pushBegun))
            && (forall e :: e in s.entries && s.entries[e].delivered != [] ==>
                  s.entries[e].pushed == Some(s.entries[e].delivered[|s.entries[e].delivered| - 1]))
  {
    var s := StateAt(start, moments, i);
    hide StateAt;
    forall u | u in s.tasks
      ensures s.tasks[u].Delivering? ==> s.tasks[u].secret.IsValid(s.tasks[u].pushBegun)
    {
      assert TaskOk(s, u);
    }
    forall e | e in s.entries
      ensures s.entries[e].Ok()
    {
      EntryIsOk(s, e);
    }
  }
}
