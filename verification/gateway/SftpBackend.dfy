/**
 The one SFTP server behind the sessions of a connection. Each method is what one task does while it holds the lock,
 so what holds after each method holds at every release of the lock. The awaits inside a method give way to other
 tasks, but none of those changes these fields without the lock.
 */
module SftpBackend {
  import opened Wrappers

  type ProcessId = nat
  type CloserId = nat
  type Operation = nat

  /** An SFTP client over one process. */
  datatype Handler = Handler(process: ProcessId)

  /** How far an attempt to open the server gets. */
  datatype Opening = NoProcess | StartFails | LimitsFail | Opens

  datatype Acquired = Held(handler: Handler) | BackendClosed | OpenFailed

  function SetOf<T>(o: Option<T>): (s: set<T>) {
    if o.Some? then {o.value} else {}
  }

  class Backend {
    var process: Option<ProcessId>
    var handler: Option<Handler>
    var recvTask: Option<ProcessId>     // the receive loop, named by its process
    var inFlight: int
    var idleCloser: Option<CloserId>    // the latest closer: pending, cancelled or done
    var closed: bool
    var nextId: nat                     // fresh names for processes and closers

    ghost var live: set<ProcessId>      // processes that were opened and not closed
    ghost var receiving: set<ProcessId> // receive loops that were started and are not done
    ghost var pending: set<CloserId>    // closers that were neither cancelled nor run
    ghost var operations: map<Operation, Handler>

    /** Holds at every release of the lock. */
    ghost predicate Valid()
      reads this
    {
      && Counted()
      && live == SetOf(process)
      && receiving == SetOf(recvTask)
      && process == recvTask
      && (process.Some? <==> handler.Some?) && (handler.Some? ==> handler == Some(Handler(process.value)))
      && (closed ==> process == None)
      && (!closed ==> forall o :: o in operations ==> handler == Some(operations[o]))
      && pending == (if handler.Some? && operations == map[] then SetOf(idleCloser) else {})
      && (handler.Some? && operations == map[] ==> idleCloser.Some?)
      && Named()
    }

    ghost predicate Counted()
      reads this`inFlight, this`operations
    {
      inFlight == |operations|
    }

    ghost predicate Named()
      reads this
    {
      (process.Some? ==> process.value < nextId) && (idleCloser.Some? ==> idleCloser.value < nextId)
    }

    constructor ()
      ensures Valid() && !closed && live == {} && operations == map[]
    {
      process, handler, recvTask, inFlight, idleCloser, closed, nextId := None, None, None, 0, None, false, 0;
      live, receiving, pending, operations := {}, {}, {}, map[];
    }

    /** No lock release sees a second process, an operation with a stale handler, or an idle process without exactly
        one closer. */
    lemma Promises()
      requires Valid()
      ensures |live| <= 1 && receiving == live
      ensures !closed ==> forall o :: o in operations ==> live == {operations[o].process}
      ensures live != {} && operations == map[] <==> |pending| == 1
      ensures |pending| <= 1
      ensures closed ==> live == {} && pending == {}
    {
    }

    method Acquire(operation: Operation, opening: Opening) returns (r: Acquired)
      requires Valid() && operation !in operations
      modifies this
      ensures Valid() && closed == old(closed)
      ensures r.BackendClosed? <==> old(closed)
      ensures r.OpenFailed? <==> !old(closed) && old(live) == {} && !opening.Opens?
      ensures r.Held? ==> operations == old(operations)[operation := r.handler] && handler == Some(r.handler)
                          && live == {r.handler.process} && pending == {}
      ensures !r.Held? ==> operations == old(operations)
      ensures r.Held? && old(live) != {} ==> handler == old(handler) && live == old(live)
      ensures r.OpenFailed? ==> live == {} && receiving == {} && pending == {}
      ensures r.BackendClosed? ==> live == {}
    {
      if closed {
        return BackendClosed;
      }
      if idleCloser.Some? {
        pending := pending - {idleCloser.value};
        idleCloser := None;
      }
      if handler.None? {
        var ready := Open(opening);
        if !ready {
          return OpenFailed;
        }
      }
      Admit(operation);
      return Held(handler.value);
    }

    /** One more operation for the current handler, once no closer is pending. */
    method Admit(operation: Operation)
      requires operation !in operations && handler.Some? && Counted()
      requires forall o :: o in operations ==> handler == Some(operations[o])
      modifies this`inFlight, this`operations
      ensures operations == old(operations)[operation := handler.value] && Counted() && operations != map[]
      ensures forall o :: o in operations ==> handler == Some(operations[o])
    {
      inFlight := inFlight + 1;
      operations := operations[operation := handler.value];
      assert operation in operations;
    }

    /** The end of an operation: the last one leaves a closer behind. */
    method Release(operation: Operation)
      requires Valid() && operation in operations
      modifies this`inFlight, this`idleCloser, this`nextId, this`pending, this`operations
      ensures Valid() && operations == old(operations) - {operation}
      ensures old(operations).Keys == {operation} && !closed ==>
                idleCloser.Some? && pending == {idleCloser.value} && idleCloser.value !in old(pending)
    {
      Dismiss(operation);
      if inFlight == 0 && !closed {
        idleCloser := Some(nextId);
        nextId := nextId + 1;
        pending := pending + {idleCloser.value};
      }
    }

    method Dismiss(operation: Operation)
      requires operation in operations && Counted()
      modifies this`inFlight, this`operations
      ensures operations == old(operations) - {operation} && Counted()
      ensures inFlight == 0 <==> operations == map[]
      ensures inFlight == 0 <==> old(operations).Keys == {operation}
    {
      inFlight := inFlight - 1;
      operations := operations - {operation};
      assert operations.Keys == old(operations).Keys - {operation};
      CountsKeys(operations);
      CountsKeys(old(operations));
    }

    /** The closer, after its sleep. */
    method CloseAfterIdle(closer: CloserId)
      requires Valid() && closer in pending
      modifies this
      ensures Valid() && closed == old(closed) && operations == old(operations)
      ensures live == {} && pending == {}
    {
      pending := pending - {closer};
      if inFlight == 0 && !closed {
        Teardown();
      }
    }

    method Aclose()
      requires Valid()
      modifies this
      ensures Valid() && closed && operations == old(operations)
      ensures live == {} && receiving == {} && pending == {}
    {
      closed := true;
      if idleCloser.Some? {
        pending := pending - {idleCloser.value};
      }
      Teardown();
    }

    /** The process is stored before the handshake, so a handshake that fails closes it. */
    method Open(opening: Opening) returns (ready: bool)
      requires process == None && handler == None && recvTask == None && live == {} && receiving == {}
      modifies this`process, this`handler, this`recvTask, this`nextId, this`live, this`receiving
      ensures ready <==> opening.Opens?
      ensures live == SetOf(process) && receiving == SetOf(recvTask) && process == recvTask && nextId >= old(nextId)
      ensures ready ==> process == Some(old(nextId)) && handler == Some(Handler(old(nextId))) && nextId == old(nextId) + 1
      ensures !ready ==> process == None && handler == None
    {
      if opening.NoProcess? {
        return false;
      }
      process := Some(nextId);
      nextId := nextId + 1;
      live := live + {process.value};
      var client := Handler(process.value);
      if opening.StartFails? {
        Teardown();
        return false;
      }
      recvTask := process;
      receiving := receiving + {process.value};
      if opening.LimitsFail? {
        Teardown();
        return false;
      }
      handler := Some(client);
      return true;
    }

    /** The receive loop is done and the process is closed, in whatever state the opening left them. */
    method Teardown()
      requires live == SetOf(process) && receiving == SetOf(recvTask)
      modifies this`process, this`handler, this`recvTask, this`live, this`receiving
      ensures process == None && handler == None && recvTask == None && live == {} && receiving == {}
    {
      if recvTask.Some? {
        receiving := receiving - {recvTask.value};
        recvTask := None;
      }
      if process.Some? {
        live := live - {process.value};
        process := None;
      }
      handler := None;
    }
  }

  lemma CountsKeys<K, V>(m: map<K, V>)
    ensures |m| == |m.Keys|
    ensures |m| == 0 <==> m == map[]
  {
  }
}
