/** One entry of the secrets exchange: the latest value, the value its provider has, and when to try again. */
module RefreshableSecrets {
  import opened Wrappers

  type TaskId = nat

  /** Microseconds. */
  type Time = int

  const SECOND: Time := 1_000_000
  const MARGIN: Time := 60 * SECOND
  const FIRST_RETRY: Time := 5 * SECOND
  const LONGEST_RETRY: Time := 60 * SECOND

  function Min(x: Time, y: Time): Time { if x <= y then x else y }

  function Pow2(n: nat): nat { if n == 0 then 1 else 2 * Pow2(n - 1) }

  /** The wait after `n` failures since the last reset: it doubles from five seconds up to a minute. */
  function Backoff(n: nat): Time { Min(FIRST_RETRY * Pow2(n), LONGEST_RETRY) }

  lemma BackoffDoubles(n: nat)
    ensures Min(Backoff(n) * 2, LONGEST_RETRY) == Backoff(n + 1)
    ensures FIRST_RETRY <= Backoff(n) <= LONGEST_RETRY
    ensures Backoff(0) == 5_000_000
    ensures Backoff(n) == if 5_000_000 * Pow2(n) <= 60_000_000 then 5_000_000 * Pow2(n) else 60_000_000
  {
    Pow2Positive(n);
  }

  lemma {:induction false} Pow2Positive(n: nat)
    ensures Pow2(n) >= 1
  {
    if n == 0 {
      assert Pow2(n) == 1;
    } else {
      Pow2Positive(n - 1);
    }
  }

  /** A value of an issuer. `begun` stamps the fetch that brought it, one stamp for each fetch, and stands for the identity
      of the object: two secrets are one object exactly if they are equal. */
  datatype Secret = Secret(value: string, expiresAt: Option<Time>, begun: nat) {
    predicate IsValid(at: Time) {
      expiresAt.None? || at < expiresAt.value
    }

    predicate IsStale(at: Time) {
      expiresAt.Some? && at >= expiresAt.value - MARGIN
    }
  }

  /** An entry as a value. The last three fields are history: how many attempts failed since the last reset, when the last
      of them did, and what was handed over. */
  datatype Entry = Entry(
    latest: Option<Secret>,
    pushed: Option<Secret>,
    fetching: Option<TaskId>,
    nextAttempt: Time,
    wait: Time,
    failures: nat,
    lastFailure: Time,
    delivered: seq<Secret>
  ) {
    predicate HoldsValid(at: Time) {
      latest.Some? && latest.value.IsValid(at)
    }

    /** A visit acts on the entry: nothing was delivered or what was has gone stale, and the retry time has come. */
    predicate IsDue(at: Time) {
      at >= nextAttempt && (pushed.None? || pushed.value.IsStale(at))
    }

    /** There is a value the provider does not have, and it was valid at `at`. */
    predicate CanHandOver(at: Time) {
      HoldsValid(at) && latest != pushed
    }

    /** The retry clock follows the failures, and `pushed` follows the deliveries, however attempts overlap. */
    predicate Ok() {
      && wait == Backoff(failures)
      && (failures > 0 ==> nextAttempt == lastFailure + Backoff(failures - 1))
      && pushed == (if delivered == [] then None else Some(delivered[|delivered| - 1]))
    }

    /** Nothing was delivered twice, and the latest value is new unless it is the pushed one. */
    predicate Tidy() {
      && (forall i, j :: 0 <= i < j < |delivered| ==> delivered[i] != delivered[j])
      && (latest.Some? && latest.value in delivered ==> latest == pushed)
    }
  }

  function NewEntry(now: Time): (e: Entry)
    ensures e.Ok() && e.Tidy()
  {
    assert FIRST_RETRY == Backoff(0);
    Entry(None, None, None, now, FIRST_RETRY, 0, now, [])
  }

  /** An attempt that failed at `now`. */
  function Delayed(e: Entry, now: Time): (r: Entry)
    ensures e.Ok() ==> r.Ok() && r.nextAttempt >= now + FIRST_RETRY
  {
    BackoffDoubles(e.failures);
    e.(nextAttempt := now + e.wait, wait := Min(e.wait * 2, LONGEST_RETRY), failures := e.failures + 1, lastFailure := now)
  }

  /** A fetch that ended at `now`, with a secret or without. */
  function Learned(e: Entry, now: Time, answer: Option<Secret>): (r: Entry)
    ensures e.Ok() ==> r.Ok()
  {
    assert FIRST_RETRY == Backoff(0);
    if answer.None? then Delayed(e, now) else e.(latest := answer, wait := FIRST_RETRY, failures := 0)
  }

  /** A delivery that ended at `now`. */
  function Delivered(e: Entry, now: Time, secret: Secret, ok: bool): (r: Entry)
    ensures e.Ok() ==> r.Ok()
  {
    assert FIRST_RETRY == Backoff(0);
    if ok then e.(pushed := Some(secret), wait := FIRST_RETRY, failures := 0, delivered := e.delivered + [secret])
    else Delayed(e, now)
  }

  datatype PushOutcome = Pushed | NothingToPush | ProviderFailed

  class RefreshableSecret {
    var latest: Option<Secret>
    var pushed: Option<Secret>
    var fetching: Option<TaskId>
    var nextAttempt: Time
    var wait: Time

    ghost const born: nat             // the step that created the entry
    ghost var failures: nat           // since the last reset
    ghost var lastFailure: Time
    ghost var delivered: seq<Secret>

    ghost function Value(): (e: Entry)
      reads this
    {
      Entry(latest, pushed, fetching, nextAttempt, wait, failures, lastFailure, delivered)
    }

    constructor (now: Time, ghost born: nat)
      ensures Value() == NewEntry(now) && this.born == born
    {
      latest, pushed, fetching, nextAttempt, wait := None, None, None, now, FIRST_RETRY;
      this.born := born;
      failures, lastFailure, delivered := 0, now, [];
    }

    /** retry_later: the wait counts from the failure, and doubles for the next one. */
    method RetryLater(now: Time)
      modifies this`nextAttempt, this`wait, this`failures, this`lastFailure
      ensures Value() == Delayed(old(Value()), now)
      ensures nextAttempt == now + old(wait)
    {
      nextAttempt := now + wait;
      wait := Min(wait * 2, LONGEST_RETRY);
      failures, lastFailure := failures + 1, now;
    }

    /** The end of a fetch: the answer is held, or the next attempt waits. */
    method EndFetch(now: Time, answer: Option<Secret>)
      modifies this`latest, this`nextAttempt, this`wait, this`failures, this`lastFailure
      ensures Value() == Learned(old(Value()), now, answer)
      ensures latest == if answer.Some? then answer else old(latest)
    {
      if answer.None? {
        RetryLater(now);
      } else {
        latest := answer;
        wait := FIRST_RETRY;
        failures := 0;
      }
    }

    /** The end of a delivery. */
    method EndDelivery(now: Time, secret: Secret, ok: bool)
      modifies this`pushed, this`nextAttempt, this`wait, this`failures, this`lastFailure, this`delivered
      ensures Value() == Delivered(old(Value()), now, secret, ok)
      ensures ok ==> pushed == Some(secret) && delivered == old(delivered) + [secret] && nextAttempt == old(nextAttempt)
      ensures !ok ==> pushed == old(pushed) && delivered == old(delivered) && nextAttempt == now + old(wait)
    {
      if ok {
        pushed := Some(secret);
        wait := FIRST_RETRY;
        failures := 0;
        delivered := delivered + [secret];
      } else {
        RetryLater(now);
      }
    }

    /** A whole refresh that no other attempt overlaps. `answer` is what the issuer gives by `end`, if it is asked. */
    method Refresh(start: Time, end: Time, answer: Option<Secret>) returns (attempted: bool)
      requires Value().Ok() && start <= end
      modifies this`latest, this`nextAttempt, this`wait, this`failures, this`lastFailure
      ensures Value().Ok()
      ensures attempted <==> start >= old(nextAttempt)
      ensures attempted && old(failures) > 0 ==> start >= old(lastFailure) + Backoff(old(failures) - 1)
      ensures latest == if attempted && answer.Some? then answer else old(latest)
      ensures wait == Backoff(if !attempted then old(failures) else if answer.Some? then 0 else old(failures) + 1)
      ensures nextAttempt == if attempted && answer.None? then end + Backoff(old(failures)) else old(nextAttempt)
    {
      attempted := start >= nextAttempt;
      if attempted {
        EndFetch(end, answer);
      }
    }

    /** A whole push that no other attempt overlaps: a value the provider lacks is fetched if need be, and handed over. */
    method Push(now: Time, fetched: Time, answer: Option<Secret>, handed: Time, delivers: bool)
      returns (outcome: PushOutcome)
      requires Value().Ok() && Value().Tidy() && now <= fetched <= handed
      requires answer.Some? ==> answer.value !in delivered && answer != latest
      modifies this`latest, this`pushed, this`nextAttempt, this`wait, this`failures, this`lastFailure, this`delivered
      ensures Value().Ok() && Value().Tidy()
      ensures outcome.Pushed? ==>
                && pushed.Some? && delivered == old(delivered) + [pushed.value]
                && pushed.value !in old(delivered) && pushed.value.IsValid(now)
                && (pushed == old(latest) || pushed == answer)
                && wait == FIRST_RETRY
      ensures !outcome.Pushed? ==> pushed == old(pushed) && delivered == old(delivered)
      ensures outcome.ProviderFailed? ==> nextAttempt >= handed + FIRST_RETRY && failures > 0
      ensures old(Value().CanHandOver(now)) ==> latest == old(latest) && !outcome.NothingToPush?
    {
      if latest == pushed || latest.None? || !latest.value.IsValid(now) {
        var _ := Refresh(now, fetched, answer);
      }
      var held := latest;
      if held.Some? && held != pushed && held.value.IsValid(now) {
        EndDelivery(handed, held.value, delivers);
        return if delivers then Pushed else ProviderFailed;
      }
      return NothingToPush;
    }
  }
}
