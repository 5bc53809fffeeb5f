/**
 The server object: what one handler, one call of Shutdown and one closing session do, each uninterrupted.
 `run` records the steps in the terms of the registry's step system, so that every result about its runs
 holds of the object.
 */
module TcpServer {
  import opened Wrappers
  import opened ServerRegistry

  // Only the last place of a handler counts.
  lemma Overwritten(m: map<nat, HandlerPc>, id: nat, x: HandlerPc, y: HandlerPc, z: HandlerPc)
    ensures m[id := x][id := y][id := z] == m[id := z]
  {
  }

  class Server {
    const max: nat
    // shutdown_, sessions_mutex_, sessions_
    var shutdown: bool
    var lock: Option<Owner>
    var sessions: set<nat>
    // the sessions that have been shut down
    var told: set<nat>
    ghost var handlers: map<nat, HandlerPc>
    ghost var callers: map<nat, CallerPc>
    ghost var closers: map<nat, CloserPc>
    ghost var run: seq<Label>

    ghost function St(): State
      reads this
    {
      State(shutdown, lock, sessions, told, handlers, callers, closers)
    }

    ghost predicate Valid()
      reads this
    {
      Exec(max, run) == Some(St())
    }

    constructor (limit: nat)
      ensures Valid() && max == limit && St() == INIT
    {
      max := limit;
      shutdown, lock, sessions, told := false, None, {}, {};
      handlers, callers, closers, run := map[], map[], map[], [];
    }

    ghost method Record(l: Label, before: State)
      requires Exec(max, run) == Some(before) && Enabled(before, l) && St() == Step(max, before, l)
      modifies `run
      ensures Valid() && run == old(run) + [l]
    {
      run := run + [l];
      assert run[..|run| - 1] == old(run);
    }

    ghost method HandlerAt(id: nat, pc: HandlerPc, before: State)
      requires Exec(max, run) == Some(before) && Enabled(before, Handle(id))
      requires St().(handlers := handlers[id := pc]) == StepHandler(max, before, id, before.handlers[id])
      modifies `handlers, `run
      ensures Valid() && handlers == old(handlers)[id := pc] && old(run) <= run
    {
      handlers := handlers[id := pc];
      Record(Handle(id), before);
    }

    // The handler of an accepted connection: registers the session, or shuts it down at once.
    method Admit(id: nat) returns (registered: bool)
      requires Valid() && lock == None && id !in handlers
      modifies this
      ensures Valid() && old(run) <= run && lock == None && shutdown == old(shutdown)
      ensures registered == (!old(shutdown) && |old(sessions)| < max)
      ensures sessions == old(sessions) + (if registered then {id} else {})
      ensures told == old(told) + (if registered then {} else {id})
      ensures handlers == old(handlers)[id := if registered then Registered else Dropped]
    {
      Enter(id);
      registered := TryInsert(id);
      Exit(id, registered);
      Overwritten(old(handlers), id, Locked, if registered then Inserted else Refusing,
                  if registered then Registered else Dropped);
    }

    // Makes the session and takes the mutex.
    method Enter(id: nat)
      requires Valid() && lock == None && id !in handlers
      modifies `lock, `handlers, `run
      ensures Valid() && old(run) <= run && handlers == old(handlers)[id := Locked]
    {
      ghost var before := St();
      handlers := handlers[id := Created];
      Record(Accept(id), before);
      before := St();
      lock := Some(Handler(id));
      HandlerAt(id, Locked, before);
    }

    // Gives the mutex back, and shuts the session down if it has not been registered.
    method Exit(id: nat, registered: bool)
      requires Valid() && id in handlers && handlers[id] == if registered then Inserted else Refusing
      modifies `lock, `told, `handlers, `run
      ensures Valid() && old(run) <= run && lock == None
      ensures told == old(told) + (if registered then {} else {id})
      ensures handlers == old(handlers)[id := if registered then Registered else Dropped]
    {
      ghost var before := St();
      lock := None;
      HandlerAt(id, if registered then Registered else Refused, before);
      if !registered {
        before := St();
        told := told + {id};
        HandlerAt(id, Dropped, before);
      }
    }

    // The critical section of the handler.
    method TryInsert(id: nat) returns (inserted: bool)
      requires Valid() && id in handlers && handlers[id] == Locked
      modifies `sessions, `handlers, `run
      ensures Valid() && old(run) <= run
      ensures inserted == (!shutdown && |old(sessions)| < max)
      ensures sessions == old(sessions) + (if inserted then {id} else {})
      ensures handlers == old(handlers)[id := if inserted then Inserted else Refusing]
    {
      HandlerAt(id, if shutdown then Refusing else Admitted, St());
      if shutdown {
        inserted := false;
      } else {
        inserted := InsertBelowLimit(id);
      }
    }

    method InsertBelowLimit(id: nat) returns (inserted: bool)
      requires Valid() && id in handlers && handlers[id] == Admitted
      modifies `sessions, `handlers, `run
      ensures Valid() && old(run) <= run
      ensures inserted == (|old(sessions)| < max)
      ensures sessions == old(sessions) + (if inserted then {id} else {})
      ensures handlers == old(handlers)[id := if inserted then Inserted else Refusing]
    {
      ghost var before := St();
      inserted := |sessions| < max;
      if inserted {
        sessions := sessions + {id};
      }
      HandlerAt(id, if inserted then Inserted else Refusing, before);
    }

    ghost method CallerAt(id: nat, next: nat, pc: CallerPc, before: State)
      requires Exec(max, run) == Some(before) && Enabled(before, Stop(id, next))
      requires St().(callers := callers[id := pc]) == StepCaller(before, id, before.callers[id], next)
      modifies `callers, `run
      ensures Valid() && callers == old(callers)[id := pc] && old(run) <= run
    {
      callers := callers[id := pc];
      Record(Stop(id, next), before);
    }

    // TcpServer::Shutdown; `call` tells the calls apart.
    method Shutdown(call: nat)
      requires Valid() && lock == None && call !in callers
      modifies this
      ensures Valid() && old(run) <= run && lock == None
      ensures shutdown && sessions == old(sessions) && told == old(told) + sessions
      ensures ShutdownReturned(St())
    {
      Raise(call);
      Lock(call);
      TellAll(call);
      ghost var before := St();
      lock := None;
      CallerAt(call, 0, Returned, before);
      assert call in St().callers && St().callers[call].Returned?;
    }

    method Raise(call: nat)
      requires Valid() && call !in callers
      modifies `shutdown, `callers, `run
      ensures Valid() && old(run) <= run && shutdown && callers == old(callers)[call := Waiting]
    {
      ghost var before := St();
      callers := callers[call := Raising];
      Record(Call(call), before);
      before := St();
      shutdown := true;
      CallerAt(call, 0, Waiting, before);
    }

    method Lock(call: nat)
      requires Valid() && lock == None && call in callers && callers[call] == Waiting
      modifies `lock, `callers, `run
      ensures Valid() && old(run) <= run && callers == old(callers)[call := Telling(sessions)]
    {
      ghost var before := St();
      lock := Some(Caller(call));
      CallerAt(call, 0, Telling(sessions), before);
    }

    // Shuts down the sessions one by one.
    method TellAll(ghost call: nat)
      requires Valid() && call in callers && callers[call] == Telling(sessions)
      modifies `told, `callers, `run
      ensures Valid() && old(run) <= run
      ensures told == old(told) + sessions && callers == old(callers)[call := Telling({})]
    {
      var todo := sessions;
      while todo != {}
        invariant Valid() && old(run) <= run
        invariant todo <= sessions && told == old(told) + (sessions - todo)
        invariant callers == old(callers)[call := Telling(todo)]
      {
        var v :| v in todo;
        ghost var before := St();
        told, todo := told + {v}, todo - {v};
        CallerAt(call, v, Telling(todo), before);
      }
    }

    ghost method CloserAt(id: nat, pc: CloserPc, before: State)
      requires Exec(max, run) == Some(before) && Enabled(before, Leave(id))
      requires St().(closers := closers[id := pc]) == StepCloser(before, id, before.closers[id])
      modifies `closers, `run
      ensures Valid() && closers == old(closers)[id := pc] && old(run) <= run
    {
      closers := closers[id := pc];
      Record(Leave(id), before);
    }

    // TcpServer::OnSessionClose, which a registered session calls once.
    method OnSessionClose(id: nat)
      requires Valid() && lock == None && id in handlers && handlers[id] == Registered && id !in closers
      modifies this
      ensures Valid() && old(run) <= run && lock == None
      ensures id in old(sessions) && sessions == old(sessions) - {id} && told == old(told)
      ensures shutdown == old(shutdown)
    {
      RegistryIsExact(max, run, id);
      ghost var before := St();
      closers := closers[id := Leaving];
      Record(Close(id), before);
      before := St();
      lock := Some(Closer(id));
      CloserAt(id, Erasing, before);
      before := St();
      sessions := sessions - {id};
      CloserAt(id, Erased, before);
      before := St();
      lock := None;
      CloserAt(id, Gone, before);
    }
  }
}
