/**
 The session registry of the TCP server, under full interleaving: handlers of accepted connections that
 register their session, calls of Shutdown, and sessions that close and take themselves out.

 Every read or write of shared data is a step of its own; only the mutex orders them.
 */
module ServerRegistry {
  import opened Wrappers

  // A handler of an accepted connection, and its session.
  datatype HandlerPc =
    | Created        // the session has been made
    | Locked         // holds the mutex
    | Admitted       // ... and has read shutdown_ as false
    | Inserted       // ... and has put its session into the registry
    | Registered     // has given the mutex back; the session is started
    | Refusing       // holds the mutex, but will not register
    | Refused        // has given the mutex back
    | Dropped        // has shut its session down

  // A call of TcpServer::Shutdown.
  datatype CallerPc =
    | Raising                    // about to set shutdown_
    | Waiting                    // about to take the mutex
    | Telling(todo: set<nat>)    // holds the mutex, and still has to shut these sessions down
    | Returned

  // A session that has closed, in OnSessionClose.
  datatype CloserPc =
    | Leaving        // about to take the mutex
    | Erasing        // holds the mutex
    | Erased         // ... and has taken the session out
    | Gone

  datatype Owner = Handler(id: nat) | Caller(id: nat) | Closer(id: nat)

  datatype State = State(
    shutdown: bool,
    lock: Option<Owner>,
    sessions: set<nat>,        // the keys of sessions_
    told: set<nat>,            // the sessions on which Shutdown has been called
    handlers: map<nat, HandlerPc>,
    callers: map<nat, CallerPc>,
    closers: map<nat, CloserPc>)

  datatype Label =
    | Accept(id: nat)              // a new connection
    | Call(id: nat)                // a new call of Shutdown
    | Close(id: nat)               // a registered session closes
    | Handle(id: nat)              // a step of a handler
    | Stop(id: nat, next: nat)     // a step of a call of Shutdown; `next` is the session it gets to
    | Leave(id: nat)               // a step of a closing session

  const INIT := State(false, None, {}, {}, map[], map[], map[])

  // ---------------------------------------------------------------- steps

  function StepHandler(max: nat, s: State, id: nat, pc: HandlerPc): State {
    match pc
    case Created => s.(lock := Some(Handler(id)), handlers := s.handlers[id := Locked])
    case Locked => s.(handlers := s.handlers[id := if s.shutdown then Refusing else Admitted])
    case Admitted =>
      if |s.sessions| >= max then s.(handlers := s.handlers[id := Refusing])
      else s.(sessions := s.sessions + {id}, handlers := s.handlers[id := Inserted])
    case Inserted => s.(lock := None, handlers := s.handlers[id := Registered])
    case Refusing => s.(lock := None, handlers := s.handlers[id := Refused])
    case Refused => s.(told := s.told + {id}, handlers := s.handlers[id := Dropped])
    case _ => s
  }

  function StepCaller(s: State, id: nat, pc: CallerPc, next: nat): State {
    match pc
    case Raising => s.(shutdown := true, callers := s.callers[id := Waiting])
    case Waiting => s.(lock := Some(Caller(id)), callers := s.callers[id := Telling(s.sessions)])
    case Telling(todo) =>
      if todo == {} then s.(lock := None, callers := s.callers[id := Returned])
      else s.(told := s.told + {next}, callers := s.callers[id := Telling(todo - {next})])
    case Returned => s
  }

  function StepCloser(s: State, id: nat, pc: CloserPc): State {
    match pc
    case Leaving => s.(lock := Some(Closer(id)), closers := s.closers[id := Erasing])
    case Erasing => s.(sessions := s.sessions - {id}, closers := s.closers[id := Erased])
    case Erased => s.(lock := None, closers := s.closers[id := Gone])
    case Gone => s
  }

  predicate Enabled(s: State, l: Label) {
    match l
    case Accept(id) => id !in s.handlers
    case Call(id) => id !in s.callers
    case Close(id) => id in s.handlers && s.handlers[id] == Registered && id !in s.closers
    case Handle(id) => id in s.handlers && (s.handlers[id] == Created ==> s.lock == None)
    case Stop(id, next) =>
      id in s.callers && (s.callers[id] == Waiting ==> s.lock == None)
      && (s.callers[id].Telling? && s.callers[id].todo != {} ==> next in s.callers[id].todo)
    case Leave(id) => id in s.closers && (s.closers[id] == Leaving ==> s.lock == None)
  }

  function Step(max: nat, s: State, l: Label): State
    requires Enabled(s, l)
  {
    match l
    case Accept(id) => s.(handlers := s.handlers[id := Created])
    case Call(id) => s.(callers := s.callers[id := Raising])
    case Close(id) => s.(closers := s.closers[id := Leaving])
    case Handle(id) => StepHandler(max, s, id, s.handlers[id])
    case Stop(id, next) => StepCaller(s, id, s.callers[id], next)
    case Leave(id) => StepCloser(s, id, s.closers[id])
  }

  function Exec(max: nat, ls: seq<Label>): Option<State> {
    if ls == [] then Some(INIT)
    else
      var before := Exec(max, ls[..|ls| - 1]);
      if before.Some? && Enabled(before.value, ls[|ls| - 1])
      then Some(Step(max, before.value, ls[|ls| - 1])) else None
  }

  // ---------------------------------------------------------------- the invariant

  predicate HandlerHolds(pc: HandlerPc) { pc.Locked? || pc.Admitted? || pc.Inserted? || pc.Refusing? }

  predicate CallerHolds(pc: CallerPc) { pc.Telling? }

  predicate CloserHolds(pc: CloserPc) { pc.Erasing? || pc.Erased? }

  predicate Holds(s: State, o: Owner) {
    match o
    case Handler(id) => id in s.handlers && HandlerHolds(s.handlers[id])
    case Caller(id) => id in s.callers && CallerHolds(s.callers[id])
    case Closer(id) => id in s.closers && CloserHolds(s.closers[id])
  }

  // Exactly the holder of the mutex is in a critical section.
  ghost predicate Exclusive(s: State) { forall o: Owner :: Holds(s, o) <==> s.lock == Some(o) }

  // A session is registered from its insertion until its own close erases it.
  predicate InRegistry(s: State, id: nat) {
    && id in s.handlers && (s.handlers[id].Inserted? || s.handlers[id].Registered?)
    && (id in s.closers ==> s.closers[id].Leaving? || s.closers[id].Erasing?)
  }

  ghost predicate Members(max: nat, s: State) {
    && |s.sessions| <= max
    && (forall id :: id in s.sessions <==> InRegistry(s, id))
    && (forall id :: id in s.closers ==> id in s.handlers && s.handlers[id].Registered?)
  }

  ghost predicate Told(s: State) {
    forall id :: id in s.callers ==> CallOk(s, s.callers[id])
  }

  ghost predicate CallOk(s: State, pc: CallerPc) {
    match pc
    case Raising => true
    case Waiting => s.shutdown
    // every session has been told that is not still to be told
    case Telling(todo) => s.shutdown && s.sessions <= s.told + todo
    case Returned => Closed(s)
  }

  ghost predicate Inv(max: nat, s: State) { Exclusive(s) && Members(max, s) && Told(s) }

  // Every registered session has been shut down, and no handler is past the test of the flag.
  ghost predicate Closed(s: State) {
    s.shutdown && s.sessions <= s.told && forall id :: id in s.handlers ==> !s.handlers[id].Admitted?
  }

  lemma InvStep(max: nat, s: State, l: Label)
    requires Inv(max, s) && Enabled(s, l)
    ensures Inv(max, Step(max, s, l))
  {
    ExclusiveStep(max, s, l);
    MembersStep(max, s, l);
    ToldStep(max, s, l);
  }

  lemma ExclusiveStep(max: nat, s: State, l: Label)
    requires Exclusive(s) && Enabled(s, l)
    ensures Exclusive(Step(max, s, l))
  {
    var t := Step(max, s, l);
    var me := Actor(l);
    assert Holds(s, me) <==> s.lock == Some(me);
    forall o: Owner ensures Holds(t, o) <==> t.lock == Some(o) {
      assert Holds(s, o) <==> s.lock == Some(o);
    }
  }

  function Actor(l: Label): Owner {
    match l
    case Accept(id) => Handler(id)
    case Call(id) => Caller(id)
    case Close(id) => Closer(id)
    case Handle(id) => Handler(id)
    case Stop(id, _) => Caller(id)
    case Leave(id) => Closer(id)
  }

  lemma MembersStep(max: nat, s: State, l: Label)
    requires Inv(max, s) && Enabled(s, l)
    ensures Members(max, Step(max, s, l))
  {
    match l
    case Handle(id) => MembersHandler(max, s, id);
    case Leave(id) => MembersCloser(max, s, id);
    case _ =>
  }

  lemma MembersHandler(max: nat, s: State, id: nat)
    requires Members(max, s) && id in s.handlers
    ensures Members(max, StepHandler(max, s, id, s.handlers[id]))
  {
    var t := StepHandler(max, s, id, s.handlers[id]);
    assert id in s.sessions <==> InRegistry(s, id);
    if t.sessions == s.sessions {
      forall i ensures i in t.sessions <==> InRegistry(t, i) {
        assert i in s.sessions <==> InRegistry(s, i);
        HandlerMoves(max, s, id, i);
      }
    } else {
      HandlerInserts(max, s, id);
    }
  }

  lemma HandlerInserts(max: nat, s: State, id: nat)
    requires Members(max, s) && id in s.handlers && s.handlers[id].Admitted? && |s.sessions| < max
    ensures Members(max, s.(sessions := s.sessions + {id}, handlers := s.handlers[id := Inserted]))
  {
    var t := s.(sessions := s.sessions + {id}, handlers := s.handlers[id := Inserted]);
    assert id in s.sessions <==> InRegistry(s, id);
    forall i ensures i in t.sessions <==> InRegistry(t, i) {
      assert i in s.sessions <==> InRegistry(s, i);
    }
  }

  lemma HandlerMoves(max: nat, s: State, id: nat, i: nat)
    requires id in s.handlers && (id in s.closers ==> s.handlers[id].Registered?)
    ensures var t := StepHandler(max, s, id, s.handlers[id]);
      t.sessions == s.sessions ==> InRegistry(t, i) == InRegistry(s, i) || (i == id && id in s.sessions)
  {
  }

  lemma MembersCloser(max: nat, s: State, id: nat)
    requires Members(max, s) && id in s.closers
    ensures Members(max, StepCloser(s, id, s.closers[id]))
  {
    var t := StepCloser(s, id, s.closers[id]);
    forall i ensures i in t.sessions <==> InRegistry(t, i) {
      assert i in s.sessions <==> InRegistry(s, i);
    }
  }

  lemma ToldStep(max: nat, s: State, l: Label)
    requires Inv(max, s) && Enabled(s, l)
    ensures Told(Step(max, s, l))
  {
    var t := Step(max, s, l);
    var me := Actor(l);
    assert Holds(s, me) <==> s.lock == Some(me);
    forall id | id in t.callers ensures CallOk(t, t.callers[id]) {
      assert Holds(s, Caller(id)) <==> s.lock == Some(Caller(id));
      assert id in s.callers ==> CallOk(s, s.callers[id]);
      if t.callers[id].Returned? {
        forall i | i in t.handlers ensures !t.handlers[i].Admitted? {
          assert Holds(s, Handler(i)) <==> s.lock == Some(Handler(i));
        }
      }
    }
  }

  lemma {:induction false} InvReachable(max: nat, ls: seq<Label>)
    requires Exec(max, ls).Some?
    ensures Inv(max, Exec(max, ls).value)
  {
    if ls != [] {
      InvReachable(max, ls[..|ls| - 1]);
      InvStep(max, Exec(max, ls[..|ls| - 1]).value, ls[|ls| - 1]);
    }
  }

  // ---------------------------------------------------------------- results

  // For a fixed limit the registry never holds more sessions, in any interleaving.
  lemma NeverOverLimit(max: nat, ls: seq<Label>)
    requires Exec(max, ls).Some?
    ensures |Exec(max, ls).value.sessions| <= max
  {
    InvReachable(max, ls);
  }

  ghost predicate ShutdownReturned(s: State) { exists id :: id in s.callers && s.callers[id].Returned? }

  // Once a call of Shutdown has returned, every session in the registry has been shut down, and from
  // then on sessions only leave it.
  lemma {:induction false} NobodyAfterShutdown(max: nat, ls: seq<Label>, ms: seq<Label>)
    requires Exec(max, ls).Some? && Exec(max, ls + ms).Some? && ShutdownReturned(Exec(max, ls).value)
    ensures ShutdownReturned(Exec(max, ls + ms).value)
    ensures Exec(max, ls + ms).value.sessions <= Exec(max, ls).value.sessions
    ensures Exec(max, ls + ms).value.sessions <= Exec(max, ls + ms).value.told
  {
    InvReachable(max, ls + ms);
    if ms == [] {
      assert ls + ms == ls;
    } else {
      assert (ls + ms)[..|ls + ms| - 1] == ls + ms[..|ms| - 1];
      NobodyAfterShutdown(max, ls, ms[..|ms| - 1]);
      InvReachable(max, ls + ms[..|ms| - 1]);
      ClosedStep(max, Exec(max, ls + ms[..|ms| - 1]).value, ms[|ms| - 1]);
    }
  }

  lemma ClosedStep(max: nat, s: State, l: Label)
    requires Inv(max, s) && Enabled(s, l) && ShutdownReturned(s)
    ensures ShutdownReturned(Step(max, s, l)) && Step(max, s, l).sessions <= s.sessions
  {
    var id :| id in s.callers && s.callers[id].Returned?;
    assert CallOk(s, s.callers[id]);
    var t := Step(max, s, l);
    assert id in t.callers && t.callers[id].Returned?;
  }

  // A session leaves the registry only by its own close.
  lemma ErasedByOwnClose(max: nat, ls: seq<Label>, l: Label, id: nat)
    requires Exec(max, ls).Some? && Exec(max, ls + [l]).Some?
    requires id in Exec(max, ls).value.sessions && id !in Exec(max, ls + [l]).value.sessions
    ensures l == Leave(id) && id in Exec(max, ls).value.closers
  {
    assert (ls + [l])[..|ls|] == ls;
  }

  // In the code's terms: while the mutex is free, the registry holds exactly the sessions that were registered
  // and have not been taken out by their close.
  lemma RegistryIsExact(max: nat, ls: seq<Label>, id: nat)
    requires Exec(max, ls).Some?
    ensures var s := Exec(max, ls).value;
      s.lock == None ==> (id in s.sessions <==>
        id in s.handlers && s.handlers[id].Registered? && (id in s.closers ==> s.closers[id].Leaving?))
  {
    InvReachable(max, ls);
    var s := Exec(max, ls).value;
    assert Holds(s, Handler(id)) <==> s.lock == Some(Handler(id));
    assert Holds(s, Closer(id)) <==> s.lock == Some(Closer(id));
    assert id in s.sessions <==> InRegistry(s, id);
  }
}
