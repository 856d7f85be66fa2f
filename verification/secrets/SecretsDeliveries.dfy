/** Which values are handed over more than once. */
module SecretsDeliveries {
  import opened Wrappers
  import opened RefreshableSecrets
  import opened SecretsProtocol
  import opened SecretsSchedules

  predicate Pushes(task: Task<EntryId>) {
    task.Delivering? || (task.Fetching? && task.purpose.ToPush?)
  }

  predicate Delivers(task: Task<EntryId>, e: EntryId, x: Secret) {
    task.Delivering? && task.entry == e && task.secret == x
  }

  // ---- How one step changes one entry and one task ----

  /** The step has put the task where it was not before. */
  predicate IsNew(s: State, t: State, id: TaskId) {
    id in t.tasks && !(id in s.tasks && s.tasks[id] == t.tasks[id])
  }

  /** The task `id` and its entry `e` change as the code of one task between two awaits may change them. */
  ghost predicate Evolves(s: State, t: State, e: EntryId, id: TaskId) {
    && OneChange(s, t, e, id)
    && var was, now := s.entries[e], t.entries[e];
    && (now.latest == was.latest
        || (id in s.tasks && s.tasks[id].Fetching? && now.latest.Some? && now.latest.value.begun == s.tasks[id].begun
            && (id in t.tasks ==> !t.tasks[id].Fetching?)))
    && ((now.delivered == was.delivered && now.pushed == was.pushed)
        || (id in s.tasks && s.tasks[id].Delivering? && id !in t.tasks && now.latest == was.latest
            && now.delivered == was.delivered + [s.tasks[id].secret] && now.pushed == Some(s.tasks[id].secret)))
    && (IsNew(s, t, id) && t.tasks[id].Fetching? ==> t.tasks[id].begun == s.step)
    && (IsNew(s, t, id) && t.tasks[id].Delivering? ==>
          now.delivered == was.delivered && now.latest == Some(t.tasks[id].secret) && now.latest != now.pushed)
  }

  /** A push begins in the step. */
  predicate BeginsPush(s: State, t: State, id: TaskId) {
    id in t.tasks && Pushes(t.tasks[id]) && !(id in s.tasks && Pushes(s.tasks[id]))
  }

  // ---- Stamps ----

  /** A fetch in flight has a stamp of its own: no value its entry holds, delivers or has delivered bears it. */
  predicate StampOk(s: State, u: TaskId)
    requires u in s.tasks
  {
    var task := s.tasks[u];
    task.Fetching? && task.entry in s.entries ==>
      && (s.entries[task.entry].latest.Some? ==> s.entries[task.entry].latest.value.begun != task.begun)
      && (forall x :: x in s.entries[task.entry].delivered ==> x.begun != task.begun)
      && (forall v :: v in s.tasks && v != u && s.tasks[v].entry == task.entry ==>
            && (s.tasks[v].Fetching? ==> s.tasks[v].begun != task.begun)
            && (s.tasks[v].Delivering? ==> s.tasks[v].secret.begun != task.begun))
  }

  ghost predicate Bounded(s: State, bound: nat) {
    && (forall e :: e in s.entries ==>
          && (s.entries[e].latest.Some? ==> s.entries[e].latest.value.begun < bound)
          && (forall x :: x in s.entries[e].delivered ==> x.begun < bound))
    && (forall u :: u in s.tasks ==>
          && u < bound
          && (s.tasks[u].Fetching? ==> s.tasks[u].begun < bound)
          && (s.tasks[u].Delivering? ==> s.tasks[u].secret.begun < bound))
  }

  ghost predicate Stamped(s: State, bound: nat) {
    Bounded(s, bound) && forall u :: u in s.tasks ==> StampOk(s, u)
  }

  lemma BoundedKept(s: State, t: State, e: EntryId, id: TaskId)
    requires Bounded(s, s.step) && Evolves(s, t, e, id) && id <= s.step
    ensures Bounded(t, s.step + 1)
  {
  }

  lemma StampKept(s: State, t: State, e: EntryId, id: TaskId, u: TaskId)
    requires Stamped(s, s.step) && Evolves(s, t, e, id) && u in t.tasks
    ensures StampOk(t, u)
  {
    if u in s.tasks {
      assert StampOk(s, u);
    }
    if id in s.tasks {
      assert StampOk(s, id);
    }
  }

  lemma StampedKept(s: State, t: State, e: EntryId, id: TaskId)
    requires Stamped(s, s.step) && Evolves(s, t, e, id) && id <= s.step
    ensures Stamped(t, s.step + 1)
  {
    BoundedKept(s, t, e, id);
    forall u | u in t.tasks
      ensures StampOk(t, u)
    {
      StampKept(s, t, e, id, u);
    }
  }

  // ---- Tidy entries ----

  predicate BothPush(a: Task<EntryId>, b: Task<EntryId>) {
    Pushes(a) && Pushes(b) && a.entry == b.entry
  }

  /** The pushes of one entry are one push, and what it hands over is new. */
  ghost predicate TidyAt(s: State) {
    && (forall e :: e in s.entries ==> s.entries[e].Tidy())
    && (forall u, v :: u in s.tasks && v in s.tasks && BothPush(s.tasks[u], s.tasks[v]) ==> u == v)
    && (forall u :: u in s.tasks && s.tasks[u].Delivering? && s.tasks[u].entry in s.entries ==>
          var entry := s.entries[s.tasks[u].entry];
          s.tasks[u].secret !in entry.delivered && entry.latest.Some? && entry.latest.value !in entry.delivered)
  }

  /** No other push of the entry is under way. */
  predicate NoOtherPush(s: State, e: EntryId, id: TaskId) {
    forall v :: v in s.tasks && v != id && Pushes(s.tasks[v]) ==> s.tasks[v].entry != e
  }

  lemma TidyKept(s: State, t: State, e: EntryId, id: TaskId)
    requires TidyAt(s) && Stamped(s, s.step) && Evolves(s, t, e, id)
    requires BeginsPush(s, t, id) ==> NoOtherPush(s, e, id)
    ensures TidyAt(t)
  {
    if id in s.tasks {
      assert StampOk(s, id);
    }
    assert s.entries[e].Tidy();
    TidyEntry(s.entries[e], t.entries[e], s, t, e, id);
  }

  lemma TidyEntry(was: Entry, now: Entry, s: State, t: State, e: EntryId, id: TaskId)
    requires Evolves(s, t, e, id) && was == s.entries[e] && now == t.entries[e] && was.Tidy()
    requires id in s.tasks ==> StampOk(s, id)
    requires id in s.tasks && s.tasks[id].Delivering? ==>
               s.tasks[id].secret !in was.delivered && was.latest.Some? && was.latest.value !in was.delivered
    ensures now.Tidy()
  {
    if now.delivered != was.delivered {
      var x := s.tasks[id].secret;
      assert forall i :: 0 <= i < |was.delivered| ==> was.delivered[i] in was.delivered;
    }
  }

  // ---- The steps evolve ----

  /** Nothing of the entries and tasks changes, or one entry and one task evolve. */
  ghost predicate Little(s: State, t: State, e: EntryId, id: TaskId) {
    t.step == s.step && t.now == s.now && ((t.entries == s.entries && t.tasks == s.tasks) || Evolves(s, t, e, id))
  }

  lemma PushIsLittle(s: State, e: EntryId, key: Key, byOrder: bool)
    requires e in s.entries && s.step !in s.tasks
    ensures Little(s, StartPush(s, e, key, byOrder).0, e, s.step)
  {
  }

  lemma FetchIsLittle(s: State, e: EntryId, key: Key, purpose: Purpose)
    requires e in s.entries && s.step !in s.tasks
    ensures Little(s, BeginFetch(s, e, key, purpose), e, s.step)
    ensures Little(s, RefreshInBackground(s, e, key), e, s.step)
  {
  }

  /** The state in which an arrival finds its entry. */
  function Met(s: State, event: Event): (t: State)
    requires Arrives(event)
    ensures event.key in t.current
  {
    if event.Order? then WithEntry(s, event.key) else Entered(s, event.key)
  }

  lemma ArrivalIsLittle(s: State, event: Event)
    requires Linked(s) && Arrives(event) && s.step !in s.tasks
    ensures var met := Met(s, event);
            && met.current[event.key] in met.entries
            && Little(met, StepArrival(s, event).0, met.current[event.key], s.step)
            && (event.Call? ==> !BeginsPush(met, StepArrival(s, event).0, s.step))
  {
    hide StartPush, BeginFetch, RefreshInBackground, NewEntry;
    var t := Met(s, event);
    var e := t.current[event.key];
    match event
    case Call(key) =>
      FetchIsLittle(t, e, key, ToServe);
      CallBeginsNoPush(t, key);
    case Order(key, needsValue) =>
      PushIsLittle(t, e, key, true);
      FetchIsLittle(t, e, key, ToHold);
    case VisitProvider(key, needsValue) =>
      PushIsLittle(t, e, key, false);
  }

  lemma CallBeginsNoPush(s: State, key: Key)
    requires key in s.current && s.current[key] in s.entries && s.step !in s.tasks
    ensures !BeginsPush(s, StepCall(s, key).0, s.step)
  {
  }

  function TaskOf(event: Event): (id: TaskId) {
    match event
    case BackgroundRuns(id) => id
    case FetchEnds(id, _) => id
    case DeliveryEnds(id, _) => id
    case Callback(id) => id
    case Cancel(id) => id
    case _ => 0
  }

  lemma ProgressIsLittle(s: State, event: Event)
    requires Linked(s) && !Arrives(event)
    ensures var t := StepProgress(s, event).0;
            || (t.entries == s.entries && t.tasks == s.tasks && t.step == s.step && t.now == s.now)
            || (TaskOf(event) in s.tasks && Evolves(s, t, s.tasks[TaskOf(event)].entry, TaskOf(event))
                && !BeginsPush(s, t, TaskOf(event)))
  {
    hide Evolves, BeginsPush, StepFetched, StepDelivered, StepBackground, StepCallback;
    var id := TaskOf(event);
    if id in s.tasks {
      FetchedEvolves(s, id, event);
      EndedEvolves(s, id, event);
      DroppedEvolves(s, id);
    }
  }

  lemma FetchedEvolves(s: State, id: TaskId, event: Event)
    requires Linked(s) && id in s.tasks
    ensures event.FetchEnds? && s.tasks[id].Fetching? ==>
              var t := StepFetched(s, id, event.answer).0; Evolves(s, t, s.tasks[id].entry, id) && !BeginsPush(s, t, id)
  {
    hide Backoff, Delayed, Learned, Received;
    if event.FetchEnds? && s.tasks[id].Fetching? {
      LearnedFields(s.entries[s.tasks[id].entry], s.now, Received(event.answer, s.tasks[id].begun, s.now));
      match s.tasks[id].purpose
      case ToPush(_, _) =>
      case _ => hide HandOver;
    }
  }

  lemma LearnedFields(e: Entry, now: Time, answer: Option<Secret>)
    ensures var r := Learned(e, now, answer);
            && r.latest == (if answer.Some? then answer else e.latest)
            && r.delivered == e.delivered && r.pushed == e.pushed && r.fetching == e.fetching
  {
  }

  lemma EndedEvolves(s: State, id: TaskId, event: Event)
    requires Linked(s) && id in s.tasks
    ensures event.DeliveryEnds? && s.tasks[id].Delivering? ==>
              var t := StepDelivered(s, id, event.ok).0; Evolves(s, t, s.tasks[id].entry, id) && !BeginsPush(s, t, id)
    ensures event.BackgroundRuns? && s.tasks[id].Queued? ==>
              var t := StepBackground(s, id); Evolves(s, t, s.tasks[id].entry, id) && !BeginsPush(s, t, id)
    ensures event.Callback? && s.tasks[id].Ended? ==>
              var t := StepCallback(s, id); Evolves(s, t, s.tasks[id].entry, id) && !BeginsPush(s, t, id)
  {
    hide Backoff;
  }

  lemma DroppedEvolves(s: State, id: TaskId)
    requires Linked(s) && id in s.tasks
    ensures var t := s.(tasks := s.tasks - {id}); Evolves(s, t, s.tasks[id].entry, id) && !BeginsPush(s, t, id)
  {
  }

  // ---- Stamps over schedules ----

  lemma MetKeepsStamps(s: State, event: Event)
    requires Arrives(event) && Stamped(s, s.step) && s.step !in s.entries && Linked(s)
    ensures Stamped(Met(s, event), s.step)
  {
    var t := Met(s, event);
    forall u | u in t.tasks
      ensures StampOk(t, u)
    {
      assert StampOk(s, u);
    }
  }

  lemma Loosen(s: State, t: State, bound: nat)
    requires Stamped(s, bound) && t.entries == s.entries && t.tasks == s.tasks
    ensures Stamped(t, bound + 1) && Stamped(t, bound)
  {
    forall u | u in t.tasks
      ensures StampOk(t, u)
    {
      assert StampOk(s, u);
    }
  }

  lemma StepKeepsStamps(before: State, m: Moment)
    requires Ok(before) && Linked(before) && Stamped(before, before.step + 1)
    ensures Stamped(Step(before, m).0, before.step + 2)
  {
    hide Ok, Stamped, Evolves, StepArrival, StepProgress, Met, Linked;
    var s := Tick(before, m.elapsed);
    TickOk(before, m.elapsed);
    StampsArePast(before, m.elapsed);
    OkIsLinked(s);
    Loosen(before, s, s.step);
    if Arrives(m.event) {
      MetKeepsStamps(s, m.event);
      ArrivalIsLittle(s, m.event);
      MetSteps(s, m.event);
      var met, t := Met(s, m.event), StepArrival(s, m.event).0;
      if Evolves(met, t, met.current[m.event.key], s.step) {
        StampedKept(met, t, met.current[m.event.key], s.step);
      } else {
        Loosen(met, t, s.step);
      }
    } else {
      ProgressIsLittle(s, m.event);
      var t := StepProgress(s, m.event).0;
      if t.entries == s.entries && t.tasks == s.tasks {
        Loosen(s, t, s.step);
      } else {
        StampedKept(s, t, s.tasks[TaskOf(m.event)].entry, TaskOf(m.event));
      }
    }
  }

  lemma MetSteps(s: State, event: Event)
    requires Arrives(event)
    ensures Met(s, event).step == s.step && Met(s, event).now == s.now && Met(s, event).tasks == s.tasks
    ensures forall e :: e in s.entries && e != s.step ==> e in Met(s, event).entries && Met(s, event).entries[e] == s.entries[e]
    ensures forall e :: e in Met(s, event).entries && e !in s.entries ==> e == s.step && Met(s, event).entries[e].delivered == []
  {
  }

  lemma {:induction false} RunKeepsStamps(start: Time, moments: seq<Moment>, i: nat)
    requires i <= |moments|
    ensures Stamped(StateAt(start, moments, i), StateAt(start, moments, i).step + 1)
  {
    hide Stamped, Step;
    if i == 0 {
      assert StateAt(start, moments, i) == Start(start);
      StartIsStamped(start);
    } else {
      RunKeepsStamps(start, moments, i - 1);
      StepKeepsStamps(StateAt(start, moments, i - 1), moments[i - 1]);
      StepCounts(StateAt(start, moments, i - 1), moments[i - 1]);
    }
  }

  lemma StartIsStamped(start: Time)
    ensures Stamped(Start(start), 1) && TidyAt(Start(start))
  {
  }

  lemma StepCounts(s: State, m: Moment)
    requires Ok(s) && Linked(s)
    ensures Step(s, m).0.step == s.step + 1
  {
    StepCalls(s, m);
    hide Step, Ok;
  }

  // ---- Pushes that do not overlap ----

  /** The push loop does not visit an entry while a push of that entry is under way. */
  predicate Apart(s: State, m: Moment) {
    m.event.VisitProvider? && m.event.key in s.current ==>
      forall v :: v in s.tasks && Pushes(s.tasks[v]) ==> s.tasks[v].entry != s.current[m.event.key]
  }

  lemma MetKeepsTidy(s: State, event: Event)
    requires Arrives(event) && TidyAt(s) && s.step !in s.entries && Linked(s)
    ensures TidyAt(Met(s, event))
  {
  }

  lemma MetIsApart(before: State, m: Moment)
    requires Ok(before) && Linked(before) && Arrives(m.event) && !m.event.Call? && Apart(before, m)
    ensures var met := Met(Tick(before, m.elapsed), m.event);
            NoOtherPush(met, met.current[m.event.key], met.step)
  {
    TickOk(before, m.elapsed);
  }

  lemma StepKeepsTidy(before: State, m: Moment)
    requires Ok(before) && Linked(before) && Stamped(before, before.step + 1) && TidyAt(before) && Apart(before, m)
    ensures TidyAt(Step(before, m).0)
  {
    var s := Tick(before, m.elapsed);
    TickOk(before, m.elapsed);
    OkIsLinked(s);
    Loosen(before, s, s.step);
    SameTidy(before, s);
    if Arrives(m.event) && !m.event.Call? {
      MetIsApart(before, m);
    }
    hide Ok, Stamped, TidyAt, Evolves, StepArrival, StepProgress, Met, BeginsPush, NoOtherPush, Apart;
    if Arrives(m.event) {
      MetKeepsStamps(s, m.event);
      MetKeepsTidy(s, m.event);
      ArrivalIsLittle(s, m.event);
      MetSteps(s, m.event);
      var met, t := Met(s, m.event), StepArrival(s, m.event).0;
      if Evolves(met, t, met.current[m.event.key], s.step) {
        TidyKept(met, t, met.current[m.event.key], s.step);
      } else {
        SameTidy(met, t);
      }
    } else {
      ProgressIsLittle(s, m.event);
      var t := StepProgress(s, m.event).0;
      if t.entries == s.entries && t.tasks == s.tasks {
        SameTidy(s, t);
      } else {
        TidyKept(s, t, s.tasks[TaskOf(m.event)].entry, TaskOf(m.event));
      }
    }
  }

  lemma SameTidy(s: State, t: State)
    requires TidyAt(s) && t.entries == s.entries && t.tasks == s.tasks
    ensures TidyAt(t)
  {
  }

  lemma {:induction false} RunKeepsTidy(start: Time, moments: seq<Moment>, i: nat)
    requires i <= |moments| && forall k :: 0 <= k < i ==> Apart(StateAt(start, moments, k), moments[k])
    ensures TidyAt(StateAt(start, moments, i))
  {
    hide Stamped, TidyAt, Step, Apart, Ok, Linked;
    if i == 0 {
      assert StateAt(start, moments, i) == Start(start);
      StartIsStamped(start);
    } else {
      RunKeepsTidy(start, moments, i - 1);
      RunKeepsStamps(start, moments, i - 1);
      StepKeepsTidy(StateAt(start, moments, i - 1), moments[i - 1]);
    }
  }

  /** No secret object is delivered successfully twice, over every schedule in which pushes of one entry do not overlap;
      those of different entries may, and so may fetches, calls and orders. */
  lemma DeliveredOnce(start: Time, moments: seq<Moment>, n: nat, e: EntryId, i: nat, j: nat)
    requires n <= |moments| && forall k :: 0 <= k < n ==> Apart(StateAt(start, moments, k), moments[k])
    requires e in StateAt(start, moments, n).entries && i < j < |StateAt(start, moments, n).entries[e].delivered|
    ensures StateAt(start, moments, n).entries[e].delivered[i] != StateAt(start, moments, n).entries[e].delivered[j]
  {
    RunKeepsTidy(start, moments, n);
    hide StateAt, Apart;
  }

  // ---- When a value is delivered twice ----

  /** No entry has delivered a value twice, and none is about to. */
  ghost predicate OnceOnly(s: State) {
    && (forall e :: e in s.entries ==> NoneTwice(s.entries[e].delivered))
    && (forall u :: u in s.tasks && s.tasks[u].Delivering? && s.tasks[u].entry in s.entries ==>
          s.tasks[u].secret !in s.entries[s.tasks[u].entry].delivered)
    && (forall u, v :: u in s.tasks && v in s.tasks && u != v && s.tasks[u].Delivering? && s.tasks[v].Delivering? ==>
          s.tasks[u].entry != s.tasks[v].entry || s.tasks[u].secret != s.tasks[v].secret)
  }

  predicate NoneTwice(xs: seq<Secret>) {
    forall i, j :: 0 <= i < j < |xs| ==> xs[i] != xs[j]
  }

  /** A hand-over that begins in the step, of a value that its entry has delivered or that is on its way already. */
  predicate Repeats(s: State, t: State, id: TaskId) {
    && IsNew(s, t, id) && t.tasks[id].Delivering?
    && ((t.tasks[id].entry in s.entries && t.tasks[id].secret in s.entries[t.tasks[id].entry].delivered)
        || exists v :: v in s.tasks && v != id && Delivers(s.tasks[v], t.tasks[id].entry, t.tasks[id].secret))
  }

  lemma OnceKeptExactly(s: State, t: State, e: EntryId, id: TaskId)
    requires OnceOnly(s) && Evolves(s, t, e, id)
    ensures OnceOnly(t) <==> !Repeats(s, t, id)
    ensures forall other :: other != id ==> !Repeats(s, t, other)
  {
    if Repeats(s, t, id) {
      RepeatIsTwice(s, t, e, id);
    } else {
      forall f | f in t.entries
        ensures NoneTwice(t.entries[f].delivered)
      {
        assert NoneTwice(s.entries[f].delivered);
        if f == e && t.entries[e].delivered != s.entries[e].delivered {
          AppendOnce(s.entries[e].delivered, s.tasks[id].secret);
        }
      }
    }
  }

  lemma AppendOnce(xs: seq<Secret>, x: Secret)
    requires NoneTwice(xs) && x !in xs
    ensures NoneTwice(xs + [x])
  {
  }

  lemma RepeatIsTwice(s: State, t: State, e: EntryId, id: TaskId)
    requires Evolves(s, t, e, id) && Repeats(s, t, id)
    ensures !OnceOnly(t)
  {
    hide NoneTwice;
    if t.tasks[id].secret !in s.entries[e].delivered {
      var v :| v in s.tasks && v != id && Delivers(s.tasks[v], t.tasks[id].entry, t.tasks[id].secret);
      assert v in t.tasks && t.tasks[v] == s.tasks[v];
    }
  }

  ghost predicate StepRepeats(s: State, t: State) {
    exists id :: Repeats(s, t, id)
  }

  lemma SameOnce(s: State, t: State)
    requires t.entries == s.entries && t.tasks == s.tasks
    ensures OnceOnly(t) == OnceOnly(s) && !StepRepeats(s, t)
  {
  }

  lemma MetKeepsOnce(s: State, event: Event)
    requires Arrives(event) && OnceOnly(s) && s.step !in s.entries && Linked(s)
    ensures OnceOnly(Met(s, event))
  {
  }

  /** A new entry has delivered nothing, so nothing new repeats because of it. */
  lemma MetRepeats(s: State, event: Event, t: State, id: TaskId)
    requires Arrives(event) && s.step !in s.entries && Linked(s)
    ensures Repeats(Met(s, event), t, id) <==> Repeats(s, t, id)
  {
    MetSteps(s, event);
    hide Met;
  }

  lemma StepKeepsOnceExactly(before: State, m: Moment)
    requires Ok(before) && Linked(before) && OnceOnly(before)
    ensures OnceOnly(Step(before, m).0) <==> !StepRepeats(before, Step(before, m).0)
  {
    hide Ok, OnceOnly, Evolves, StepArrival, StepProgress, Met, Repeats, Linked;
    var s := Tick(before, m.elapsed);
    TickOk(before, m.elapsed);
    OkIsLinked(s);
    SameOnce(before, s);
    var t := Step(before, m).0;
    forall id
      ensures Repeats(before, t, id) <==> Repeats(s, t, id)
    {
      SameRepeats(before, s, t, id);
    }
    if Arrives(m.event) {
      MetKeepsOnce(s, m.event);
      ArrivalIsLittle(s, m.event);
      var met := Met(s, m.event);
      forall id
        ensures Repeats(met, t, id) <==> Repeats(s, t, id)
      {
        MetRepeats(s, m.event, t, id);
      }
      if Evolves(met, t, met.current[m.event.key], s.step) {
        OnceKeptExactly(met, t, met.current[m.event.key], s.step);
      } else {
        SameOnce(met, t);
      }
    } else {
      ProgressIsLittle(s, m.event);
      if t.entries == s.entries && t.tasks == s.tasks {
        SameOnce(s, t);
      } else {
        OnceKeptExactly(s, t, s.tasks[TaskOf(m.event)].entry, TaskOf(m.event));
      }
    }
  }

  lemma SameRepeats(s: State, same: State, t: State, id: TaskId)
    requires same.entries == s.entries && same.tasks == s.tasks
    ensures Repeats(s, t, id) <==> Repeats(same, t, id)
  {
  }

  /** The latest value of an entry was delivered before, or is on its way. */
  ghost predicate LatestIsOut(s: State, e: EntryId)
    requires e in s.entries
  {
    s.entries[e].latest.Some? &&
    (s.entries[e].latest.value in s.entries[e].delivered
     || exists v :: v in s.tasks && Delivers(s.tasks[v], e, s.entries[e].latest.value))
  }

  /** Before a moment: it is a visit that is due, of an entry whose latest value is out but is not the pushed one; or the end
      of a fetch without an answer, for a push that will fall back on such a value. */
  ghost predicate WillRepeat(s: State, m: Moment)
    requires Linked(s)
  {
    var now := s.now + m.elapsed;
    match m.event
    case VisitProvider(key, needsValue) =>
      && needsValue && key in s.current
      && s.entries[s.current[key]].IsDue(now) && s.entries[s.current[key]].CanHandOver(now)
      && LatestIsOut(s, s.current[key])
    case FetchEnds(id, answer) =>
      && id in s.tasks && s.tasks[id].Fetching? && s.tasks[id].purpose.ToPush? && !Usable(answer, now)
      && s.entries[s.tasks[id].entry].CanHandOver(s.tasks[id].purpose.pushBegun)
      && LatestIsOut(s, s.tasks[id].entry)
    case _ => false
  }

  /** A hand-over of the value that its entry holds repeats exactly if that value is out. */
  lemma HandOverRepeats(s: State, id: TaskId, e: EntryId, key: Key, pushBegun: Time, byOrder: bool)
    requires e in s.entries && (id in s.tasks ==> !s.tasks[id].Delivering?)
    ensures var t := HandOver(s, id, e, key, pushBegun, byOrder).0;
            && (Repeats(s, t, id) <==> s.entries[e].CanHandOver(pushBegun) && LatestIsOut(s, e))
            && forall other :: other != id ==> !Repeats(s, t, other)
  {
    var t := HandOver(s, id, e, key, pushBegun, byOrder).0;
    if s.entries[e].CanHandOver(pushBegun) && LatestIsOut(s, e) && s.entries[e].latest.value !in s.entries[e].delivered {
      var v :| v in s.tasks && Delivers(s.tasks[v], e, s.entries[e].latest.value);
      assert v != id && Delivers(s.tasks[v], t.tasks[id].entry, t.tasks[id].secret);
    }
  }

  lemma NewTasksOnly(s: State, t: State, id: TaskId)
    requires forall u :: u in t.tasks && u != id ==> u in s.tasks && s.tasks[u] == t.tasks[u]
    requires IsNew(s, t, id) ==> !t.tasks[id].Delivering?
    ensures !StepRepeats(s, t)
  {
  }

  lemma PushRepeats(s: State, e: EntryId, key: Key, byOrder: bool)
    requires e in s.entries && s.step !in s.tasks
    ensures StepRepeats(s, StartPush(s, e, key, byOrder).0) <==> s.entries[e].CanHandOver(s.now) && LatestIsOut(s, e)
  {
    hide HandOver, Repeats, LatestIsOut;
    if s.entries[e].CanHandOver(s.now) || !MayFetch(s, e) {
      HandOverRepeats(s, s.step, e, key, s.now, byOrder);
    } else {
      NewTasksOnly(s, StartPush(s, e, key, byOrder).0, s.step);
    }
  }

  lemma CallRepeatsNothing(s: State, key: Key)
    requires key in s.current && s.current[key] in s.entries && s.step !in s.tasks
    ensures !StepRepeats(s, StepCall(s, key).0)
  {
    NewTasksOnly(s, StepCall(s, key).0, s.step);
  }

  lemma ArrivalRepeats(s: State, event: Event)
    requires Linked(s) && Arrives(event) && s.step !in s.tasks && s.step !in s.entries
    ensures StepRepeats(Met(s, event), StepArrival(s, event).0) <==> WillRepeat(s, Moment(event, 0))
  {
    hide Repeats, StepRepeats, StartPush, StepCall, BeginFetch, NewEntry;
    var met := Met(s, event);
    var e := met.current[event.key];
    match event
    case Call(key) => CallRepeatsNothing(met, key);
    case Order(key, needsValue) =>
      PushRepeats(met, e, key, true);
      NewHoldsNothing(s.now);
      HoldRepeatsNothing(met, e, key);
    case VisitProvider(key, needsValue) =>
      PushRepeats(met, e, key, false);
      SameRepeatsNothing(met);
      NewHoldsNothing(s.now);
  }

  lemma NewHoldsNothing(now: Time)
    ensures NewEntry(now).latest.None?
  {
  }

  lemma HoldRepeatsNothing(s: State, e: EntryId, key: Key)
    requires e in s.entries && s.step !in s.tasks
    ensures !StepRepeats(s, BeginFetch(s, e, key, ToHold))
  {
    NewTasksOnly(s, BeginFetch(s, e, key, ToHold), s.step);
  }

  lemma SameRepeatsNothing(s: State)
    ensures !StepRepeats(s, s)
  {
  }

  /** An answer that is usable is new: its stamp is of this fetch only. */
  lemma FetchRepeats(s: State, id: TaskId, answer: Answer)
    requires Linked(s) && id in s.tasks && s.tasks[id].Fetching? && StampOk(s, id)
    ensures StepRepeats(s, StepFetched(s, id, answer).0) <==> WillRepeat(s, Moment(FetchEnds(id, answer), 0))
  {
    var task := s.tasks[id];
    var t := LearnedIn(s, id, answer);
    LearnedFields(s.entries[task.entry], s.now, Received(answer, task.begun, s.now));
    hide Learned, Repeats, HandOver, Delayed;
    if task.purpose.ToPush? {
      HandOverRepeats(t, id, task.entry, task.key, task.purpose.pushBegun, task.purpose.byOrder);
      forall u
        ensures Repeats(t, AfterFetch(t, id).0, u) <==> Repeats(s, AfterFetch(t, id).0, u)
      {
        LearnedRepeats(s, t, AfterFetch(t, id).0, task.entry, u);
      }
      if Usable(answer, s.now) {
        NewIsNotOut(s, t, id, answer);
      } else {
        OutAsBefore(s, t, task.entry);
      }
    } else {
      NewTasksOnly(s, AfterFetch(t, id).0, id);
    }
  }

  lemma LearnedRepeats(s: State, t: State, u: State, e: EntryId, id: TaskId)
    requires e in s.entries && e in t.entries && t.tasks == s.tasks && t.entries == s.entries[e := t.entries[e]]
    requires t.entries[e].delivered == s.entries[e].delivered
    ensures Repeats(t, u, id) <==> Repeats(s, u, id)
  {
  }

  lemma NewIsNotOut(s: State, t: State, id: TaskId, answer: Answer)
    requires Linked(s) && id in s.tasks && s.tasks[id].Fetching? && StampOk(s, id) && Usable(answer, s.now)
    requires t == LearnedIn(s, id, answer)
    ensures !LatestIsOut(t, s.tasks[id].entry)
  {
  }

  lemma OutAsBefore(s: State, t: State, e: EntryId)
    requires e in s.entries && e in t.entries && t.tasks == s.tasks
    requires t.entries[e].delivered == s.entries[e].delivered && t.entries[e].latest == s.entries[e].latest
    ensures LatestIsOut(t, e) <==> LatestIsOut(s, e)
  {
  }

  lemma ProgressRepeats(s: State, event: Event)
    requires Linked(s) && !Arrives(event) && (TaskOf(event) in s.tasks ==> StampOk(s, TaskOf(event)))
    ensures StepRepeats(s, StepProgress(s, event).0) <==> WillRepeat(s, Moment(event, 0))
  {
    hide Repeats, StepRepeats, StepFetched, StepDelivered, StepBackground, StepCallback;
    var id := TaskOf(event);
    SameRepeatsNothing(s);
    if event.FetchEnds? {
      if id in s.tasks && s.tasks[id].Fetching? {
        FetchRepeats(s, id, event.answer);
      }
    } else {
      OtherRepeatsNothing(s, event);
    }
  }

  lemma OtherRepeatsNothing(s: State, event: Event)
    requires Linked(s) && !Arrives(event) && !event.FetchEnds?
    ensures !StepRepeats(s, StepProgress(s, event).0)
  {
    NewTasksOnly(s, StepProgress(s, event).0, TaskOf(event));
  }

  /** A step begins a hand-over that repeats if and only if the state before it and the event say so. */
  lemma StepRepeatsExactly(before: State, m: Moment)
    requires Ok(before) && Linked(before) && Stamped(before, before.step + 1)
    ensures StepRepeats(before, Step(before, m).0) <==> WillRepeat(before, m)
  {
    hide Ok, StepArrival, StepProgress, Met, Repeats, LatestIsOut, Bounded;
    var s := Tick(before, m.elapsed);
    TickOk(before, m.elapsed);
    OkIsLinked(s);
    var t := Step(before, m).0;
    forall id
      ensures Repeats(before, t, id) <==> Repeats(s, t, id)
    {
      SameRepeats(before, s, t, id);
    }
    TickedWillRepeat(before, m);
    if Arrives(m.event) {
      ArrivalRepeats(s, m.event);
      forall id
        ensures Repeats(Met(s, m.event), t, id) <==> Repeats(s, t, id)
      {
        MetRepeats(s, m.event, t, id);
      }
    } else {
      if TaskOf(m.event) in s.tasks {
        assert StampOk(before, TaskOf(m.event));
      }
      ProgressRepeats(s, m.event);
    }
  }

  lemma TickedWillRepeat(s: State, m: Moment)
    requires Linked(s) && Linked(Tick(s, m.elapsed))
    ensures WillRepeat(s, m) <==> WillRepeat(Tick(s, m.elapsed), Moment(m.event, 0))
  {
    var t := Tick(s, m.elapsed);
    forall e | e in s.entries
      ensures LatestIsOut(t, e) <==> LatestIsOut(s, e)
    {
    }
    hide LatestIsOut;
  }

  /** The exact condition: over every schedule no value is delivered twice, or on its way to be, if and only if no push hands
      over a value that is out: no visit comes due while the latest value is out and not the pushed one, and no push falls
      back on such a value when its fetch brings none. */
  lemma {:induction false} DeliveredOnceExactly(start: Time, moments: seq<Moment>, n: nat)
    requires n <= |moments|
    ensures (forall i :: 0 <= i <= n ==> OnceOnly(StateAt(start, moments, i)))
            <==> forall i :: 0 <= i < n ==> !WillRepeat(StateAt(start, moments, i), moments[i])
  {
    hide OnceOnly, StepRepeats, WillRepeat, Step, Ok, Linked, Stamped;
    if n == 0 {
      assert StateAt(start, moments, 0) == Start(start);
      StartIsOnce(start);
    } else {
      DeliveredOnceExactly(start, moments, n - 1);
      StateAfter(start, moments, n - 1);
      RunKeepsStamps(start, moments, n - 1);
      StepRepeatsExactly(StateAt(start, moments, n - 1), moments[n - 1]);
      if OnceOnly(StateAt(start, moments, n - 1)) {
        StepKeepsOnceExactly(StateAt(start, moments, n - 1), moments[n - 1]);
      }
    }
  }

  lemma StartIsOnce(start: Time)
    ensures OnceOnly(Start(start))
  {
  }

  /** Some entry has delivered one value twice. */
  ghost predicate Twice(s: State) {
    exists e :: e in s.entries && !NoneTwice(s.entries[e].delivered)
  }

  ghost function AfterAll(s: State, more: seq<Moment>): (t: State)
    requires Ok(s)
    ensures Ok(t)
    decreases |more|
  {
    if more == [] then s
    else
      StepOk(s, more[0]);
      AfterAll(Step(s, more[0]).0, more[1..])
  }

  lemma DeliveryCompletes(s: State, u: TaskId)
    requires Ok(s) && Linked(s) && u in s.tasks && s.tasks[u].Delivering?
    ensures var t := Step(s, Moment(DeliveryEnds(u, true), 0)).0;
            var e := s.tasks[u].entry;
            && e in s.entries && e in t.entries && t.tasks == s.tasks - {u}
            && t.entries[e].delivered == s.entries[e].delivered + [s.tasks[u].secret]
  {
  }

  lemma InAndAppended(xs: seq<Secret>, x: Secret)
    requires x in xs
    ensures !NoneTwice(xs + [x])
  {
    var i :| 0 <= i < |xs| && xs[i] == x;
    assert (xs + [x])[i] == (xs + [x])[|xs|];
  }

  /** And what is about to happen can: two deliveries that both succeed are enough. */
  lemma RepeatBecomesTwice(s: State) returns (more: seq<Moment>)
    requires Ok(s) && !OnceOnly(s)
    ensures |more| <= 2 && Twice(AfterAll(s, more))
  {
    OkIsLinked(s);
    hide Step, Ok;
    if e :| e in s.entries && !NoneTwice(s.entries[e].delivered) {
      more := [];
    } else if u :| u in s.tasks && s.tasks[u].Delivering? && s.tasks[u].secret in s.entries[s.tasks[u].entry].delivered {
      more := [Moment(DeliveryEnds(u, true), 0)];
      DeliveryCompletes(s, u);
      InAndAppended(s.entries[s.tasks[u].entry].delivered, s.tasks[u].secret);
      assert AfterAll(s, more) == Step(s, more[0]).0 by { AfterOne(s, more[0]); }
    } else {
      var u, v :| u in s.tasks && v in s.tasks && u != v && s.tasks[u].Delivering? && s.tasks[v].Delivering?
                  && s.tasks[u].entry == s.tasks[v].entry && s.tasks[u].secret == s.tasks[v].secret;
      more := TwoDeliveries(s, u, v);
    }
  }

  lemma AfterOne(s: State, m: Moment)
    requires Ok(s)
    ensures Linked(s) && AfterAll(s, [m]) == Step(s, m).0
  {
    OkIsLinked(s);
    StepOk(s, m);
    assert [m][1..] == [];
  }

  lemma TwoDeliveries(s: State, u: TaskId, v: TaskId) returns (more: seq<Moment>)
    requires Ok(s) && u in s.tasks && v in s.tasks && u != v && s.tasks[u].Delivering? && s.tasks[v].Delivering?
    requires s.tasks[u].entry == s.tasks[v].entry && s.tasks[u].secret == s.tasks[v].secret
    ensures |more| == 2 && Twice(AfterAll(s, more))
  {
    var first, second := Moment(DeliveryEnds(u, true), 0), Moment(DeliveryEnds(v, true), 0);
    more := [first, second];
    OkIsLinked(s);
    StepOk(s, first);
    hide Step, Ok, Linked;
    DeliveryCompletes(s, u);
    var t := Step(s, first).0;
    OkIsLinked(t);
    DeliveryCompletes(t, v);
    InAndAppended(t.entries[t.tasks[v].entry].delivered, t.tasks[v].secret);
    AfterOne(t, second);
    assert more[1..] == [second];
  }

  /** An order and a visit that overlap do it: while the order hands its value over, the visit finds that the provider has
      none and hands the same object over again. Both succeed. */
  lemma OverlappingPushesDeliverTwice(key: Key, value: string)
    ensures var moments := [Moment(Order(key, true), 0), Moment(FetchEnds(1, Answered(value, None, MARGIN)), 0),
                            Moment(VisitProvider(key, true), 0), Moment(DeliveryEnds(1, true), 0),
                            Moment(DeliveryEnds(3, true), 0)];
            var x := Secret(value, Some(MARGIN), 1);
            1 in StateAt(0, moments, 5).entries && StateAt(0, moments, 5).entries[1].delivered == [x, x]
  {
    var moments := [Moment(Order(key, true), 0), Moment(FetchEnds(1, Answered(value, None, MARGIN)), 0),
                    Moment(VisitProvider(key, true), 0), Moment(DeliveryEnds(1, true), 0),
                    Moment(DeliveryEnds(3, true), 0)];
    var x := Secret(value, Some(MARGIN), 1);
    var e1 := NewEntry(0);
    var s1 := State(0, 1, map[1 := e1], map[key := 1], map[1 := Fetching(1, key, ToPush(0, true), 1)]);
    FirstOrder(key, moments[0]);
    var e2 := e1.(latest := Some(x));
    var s2 := State(0, 2, map[1 := e2], map[key := 1], map[1 := Delivering(1, key, x, 0, true)]);
    FirstValue(key, value, s1, moments[1]);
    var s3 := State(0, 3, map[1 := e2], map[key := 1],
                    map[1 := Delivering(1, key, x, 0, true), 3 := Delivering(1, key, x, 0, false)]);
    SecondHandOver(key, x, s2, moments[2]);
    StateAfter(0, moments, 0);
    StateAfter(0, moments, 1);
    StateAfter(0, moments, 2);
    StateAfter(0, moments, 3);
    StateAfter(0, moments, 4);
    assert StateAt(0, moments, 0) == Start(0);
    assert StateAt(0, moments, 3) == s3;
    BothSucceed(key, x, s3, moments[3], moments[4]);
  }

  lemma FirstOrder(key: Key, m: Moment)
    requires m == Moment(Order(key, true), 0)
    ensures Step(Start(0), m).0
            == State(0, 1, map[1 := NewEntry(0)], map[key := 1], map[1 := Fetching(1, key, ToPush(0, true), 1)])
  {
  }

  lemma FirstValue(key: Key, value: string, s: State, m: Moment)
    requires s == State(0, 1, map[1 := NewEntry(0)], map[key := 1], map[1 := Fetching(1, key, ToPush(0, true), 1)])
    requires m == Moment(FetchEnds(1, Answered(value, None, MARGIN)), 0) && Linked(s)
    ensures var x := Secret(value, Some(MARGIN), 1);
            Step(s, m).0 == State(0, 2, map[1 := NewEntry(0).(latest := Some(x))], map[key := 1],
                                  map[1 := Delivering(1, key, x, 0, true)])
  {
  }

  lemma SecondHandOver(key: Key, x: Secret, s: State, m: Moment)
    requires x.IsValid(0) && m == Moment(VisitProvider(key, true), 0) && Linked(s)
    requires s == State(0, 2, map[1 := NewEntry(0).(latest := Some(x))], map[key := 1],
                        map[1 := Delivering(1, key, x, 0, true)])
    ensures Step(s, m).0 == State(0, 3, s.entries, s.current,
                                  map[1 := Delivering(1, key, x, 0, true), 3 := Delivering(1, key, x, 0, false)])
  {
  }

  lemma BothSucceed(key: Key, x: Secret, s: State, first: Moment, second: Moment)
    requires s == State(0, 3, map[1 := NewEntry(0).(latest := Some(x))], map[key := 1],
                        map[1 := Delivering(1, key, x, 0, true), 3 := Delivering(1, key, x, 0, false)])
    requires first == Moment(DeliveryEnds(1, true), 0) && second == Moment(DeliveryEnds(3, true), 0)
    requires Linked(s) && Linked(Step(s, first).0)
    ensures var t := Step(Step(s, first).0, second).0; 1 in t.entries && t.entries[1].delivered == [x, x]
  {
  }
}
