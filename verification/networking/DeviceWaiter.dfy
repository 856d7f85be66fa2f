/**
 One poller settles the futures of many waiting calls. Each method is the code of one task between two awaits; the
 event loop may run them in any order. `phase` says where the poll task stands.
 */
module DeviceWaiter {
  import opened Wrappers

  datatype Device = Device(hostname: string, id: string)

  datatype FutureState = Pending | Resolved(id: string) | Failed | Cancelled

  datatype Phase = AtLoopHead | Listing | Sleeping | Finished

  datatype Outcome = Found(id: string) | AuthFailed | TimedOut

  /** The first device with a host name. */
  function FirstMatch(devices: seq<Device>, hostname: string): (id: Option<string>) {
    if devices == [] then None
    else
      var earlier := FirstMatch(devices[..|devices| - 1], hostname);
      var last := devices[|devices| - 1];
      if earlier.Some? then earlier else if last.hostname == hostname then Some(last.id) else None
  }

  predicate IsFirst(devices: seq<Device>, hostname: string, id: string, i: nat) {
    i < |devices| && devices[i] == Device(hostname, id) && forall j :: 0 <= j < i ==> devices[j].hostname != hostname
  }

  lemma {:induction false} FirstMatchIsFirst(devices: seq<Device>, hostname: string)
    ensures FirstMatch(devices, hostname).None? <==> forall j :: 0 <= j < |devices| ==> devices[j].hostname != hostname
    ensures var id := FirstMatch(devices, hostname);
            id.Some? ==> exists i: nat :: IsFirst(devices, hostname, id.value, i)
    ensures forall id, i: nat :: IsFirst(devices, hostname, id, i) ==> FirstMatch(devices, hostname) == Some(id)
  {
    if devices == [] {
    } else {
      var n := |devices| - 1;
      var rest := devices[..n];
      FirstMatchIsFirst(rest, hostname);
      var id := FirstMatch(devices, hostname);
      if FirstMatch(rest, hostname).Some? {
        var i: nat :| IsFirst(rest, hostname, id.value, i);
        assert IsFirst(devices, hostname, id.value, i);
      } else if id.Some? {
        assert IsFirst(devices, hostname, id.value, n);
      }
      forall id, i: nat | IsFirst(devices, hostname, id, i)
        ensures FirstMatch(devices, hostname) == Some(id)
      {
        if i < n {
          assert IsFirst(rest, hostname, id, i);
        }
      }
    }
  }

  /** A future takes a result only while it is pending: a second settlement would be an error of the caller. */
  class Future {
    const hostname: string
    var state: FutureState

    constructor (hostname: string)
      ensures this.hostname == hostname && state == Pending
    {
      this.hostname, state := hostname, Pending;
    }

    method Settle(result: FutureState)
      requires state.Pending? && !result.Pending?
      modifies this`state
      ensures state == result
    {
      state := result;
    }
  }

  class PollTask {
    var phase: Phase

    constructor ()
      ensures phase == AtLoopHead
    {
      phase := AtLoopHead;
    }
  }

  class Waiter {
    var waiters: map<string, Future>
    var task: PollTask?
    ghost var futures: set<Future>                  // every future ever made
    ghost var listed: set<Device>                   // every device that a listing ever gave

    /** Holds whatever the host names are: while a registered future is pending the poll task is not done, and a future is
        resolved only to a listed device of its host name. */
    ghost predicate Valid()
      reads this, futures, task
    {
      && (forall h :: h in waiters ==> waiters[h] in futures && waiters[h].hostname == h)
      && (forall h :: h in waiters && waiters[h].state.Pending? ==> task != null && !task.phase.Finished?)
      && (forall f :: f in futures && f.state.Resolved? ==> Device(f.hostname, f.state.id) in listed)
    }

    /** No waiter is stranded: every pending future is registered, so the poll task is not done. */
    ghost predicate NoneStranded()
      reads this, futures
    {
      forall f :: f in futures && f.state.Pending? ==> f.hostname in waiters && waiters[f.hostname] == f
    }

    constructor ()
      ensures Valid() && NoneStranded() && waiters == map[] && fresh(futures)
    {
      waiters, task, futures, listed := map[], null, {}, {};
    }

    /** wait_for, up to its await. A second call for a host name takes the place of the first: that strands the first if it
        still waits, and nothing else does. */
    method Register(hostname: string) returns (future: Future)
      requires Valid()
      modifies this`waiters, this`task, this`futures
      ensures Valid() && fresh(future) && future.state.Pending? && future.hostname == hostname
      ensures waiters == old(waiters)[hostname := future] && futures == old(futures) + {future} && listed == old(listed)
      ensures task != null && !task.phase.Finished? && (task == old(task) || fresh(task))
      ensures old(task != null && !task.phase.Finished?) ==> task == old(task)
      ensures old(NoneStranded()) ==>
                (NoneStranded() <==> !(hostname in old(waiters) && old(waiters)[hostname].state.Pending?))
    {
      if task == null || task.phase.Finished? {
        task := new PollTask();
      }
      future := new Future(hostname);
      waiters := waiters[hostname := future];
      futures := futures + {future};
    }

    /** The timeout of a waiting call, or its cancellation: the awaited future is cancelled unless it is settled. */
    method Expire(future: Future)
      requires Valid() && future in futures
      modifies future`state
      ensures Valid() && (old(NoneStranded()) ==> NoneStranded())
      ensures future.state == if old(future.state).Pending? then Cancelled else old(future.state)
    {
      if future.state.Pending? {
        future.Settle(Cancelled);
      }
    }

    /** wait_for, after its await: a result that comes with the timeout is dropped. The host name leaves the map, whichever
        call it is registered for by now. */
    method Resume(future: Future, late: bool) returns (outcome: Outcome)
      requires Valid() && future in futures && !future.state.Pending?
      modifies this`waiters
      ensures Valid() && waiters == old(waiters) - {future.hostname}
      ensures outcome.Found? ==> Device(future.hostname, outcome.id) in listed
      ensures outcome.Found? <==> !late && future.state.Resolved?
      ensures outcome.Found? ==> outcome.id == future.state.id
      ensures outcome.AuthFailed? <==> !late && future.state.Failed?
      ensures old(NoneStranded()) ==>
                (NoneStranded() <==>
                 !(future.hostname in old(waiters) && old(waiters)[future.hostname].state.Pending?))
    {
      waiters := waiters - {future.hostname};
      if late || future.state.Cancelled? {
        return TimedOut;
      }
      return if future.state.Failed? then AuthFailed else Found(future.state.id);
    }

    /** The poll task at the head of its loop: it ends only when no call waits. */
    method Poll()
      requires Valid() && task != null && (task.phase.AtLoopHead? || task.phase.Sleeping?)
      modifies task`phase
      ensures Valid() && task.phase == if waiters == map[] then Finished else Listing
      ensures old(NoneStranded()) ==> NoneStranded() && (task.phase.Finished? ==> forall f :: f in futures ==> !f.state.Pending?)
    {
      task.phase := if waiters == map[] then Finished else Listing;
    }

    /** A listing settles every pending future whose host it names, with the first device of that name. */
    method ListingArrives(devices: seq<Device>)
      requires Valid() && task != null && task.phase.Listing?
      modifies task`phase, this`listed, waiters.Values`state
      ensures old(NoneStranded()) ==> NoneStranded()
      ensures Valid() && task.phase.Sleeping? && listed == old(listed) + set d | d in devices
      ensures forall h :: h in waiters ==>
                waiters[h].state ==
                if old(waiters[h].state).Pending? && FirstMatch(devices, h).Some? then Resolved(FirstMatch(devices, h).value)
                else old(waiters[h].state)
    {
      var i := 0;
      while i < |devices|
        invariant 0 <= i <= |devices| && listed == old(listed) && task.phase.Listing?
        invariant forall h :: h in waiters ==>
                    waiters[h].state ==
                    if old(waiters[h].state).Pending? && FirstMatch(devices[..i], h).Some?
                    then Resolved(FirstMatch(devices[..i], h).value) else old(waiters[h].state)
      {
        assert devices[..i + 1][..i] == devices[..i];
        Offer(devices[i]);
        i := i + 1;
      }
      assert devices[..i] == devices;
      task.phase := Sleeping;
      listed := listed + set d | d in devices;
      forall f | f in futures && f.state.Resolved?
        ensures Device(f.hostname, f.state.id) in listed
      {
        if f.hostname in waiters && waiters[f.hostname] == f {
          if old(f.state.Pending?) {
            FirstMatchIsFirst(devices, f.hostname);
            var k: nat :| IsFirst(devices, f.hostname, f.state.id, k);
            assert devices[k] in devices;
          }
        } else {
          assert f !in waiters.Values;
          assert f.state == old(f.state);
        }
      }
    }

    /** One device of a listing. */
    method Offer(device: Device)
      requires forall h :: h in waiters ==> waiters[h].hostname == h
      modifies waiters.Values`state
      ensures forall h :: h in waiters ==>
                waiters[h].state ==
                if h == device.hostname && old(waiters[h].state).Pending? then Resolved(device.id)
                else old(waiters[h].state)
    {
      if device.hostname in waiters && waiters[device.hostname].state.Pending? {
        waiters[device.hostname].Settle(Resolved(device.id));
      }
    }

    /** A listing that fails for another reason than authorization is tried again. */
    method ListingFails()
      requires Valid() && task != null && task.phase.Listing?
      modifies task`phase
      ensures Valid() && task.phase.Sleeping? && (old(NoneStranded()) ==> NoneStranded())
    {
      task.phase := Sleeping;
    }

    /** An authorization failure fails every pending future, and the poll task ends. */
    method AuthorizationFails()
      requires Valid() && task != null && task.phase.Listing?
      modifies task`phase, waiters.Values`state
      ensures Valid() && task.phase.Finished?
      ensures old(NoneStranded()) ==> forall f :: f in futures ==> !f.state.Pending?
      ensures forall h :: h in waiters ==>
                waiters[h].state == if old(waiters[h].state).Pending? then Failed else old(waiters[h].state)
    {
      var rest := waiters.Keys;
      while rest != {}
        invariant rest <= waiters.Keys
        invariant forall h :: h in rest ==> waiters[h].state == old(waiters[h].state)
        invariant forall h :: h in waiters && h !in rest ==>
                    waiters[h].state == if old(waiters[h].state).Pending? then Failed else old(waiters[h].state)
      {
        var h :| h in rest;
        if waiters[h].state.Pending? {
          waiters[h].Settle(Failed);
        }
        rest := rest - {h};
      }
      task.phase := Finished;
      forall f | f in futures && f.state.Resolved?
        ensures Device(f.hostname, f.state.id) in listed
      {
        if !(f.hostname in waiters && waiters[f.hostname] == f) {
          assert f.state == old(f.state);
        }
      }
    }
  }
}
