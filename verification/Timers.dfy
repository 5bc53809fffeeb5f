/**
 The send timers: a message is marked as timed out exactly if its own timer has fired.
 */
module Timers {
  import opened Wrappers
  import opened SendMachine
  import opened SessionRuns
  import Close = CloseProtocol
  import Conservation
  import Fifo
  import Trace

  // The messages whose timers have fired in a run.
  function Fired(c: Config, ls: seq<Label>): set<nat> {
    if ls == [] then {}
    else Fired(c, ls[..|ls| - 1]) + FiresNow(Trace.Before(c, ls), ls[|ls| - 1])
  }

  function FiresNow(s: State, l: Label): set<nat> {
    if l.Timer? && l.id in s.h.accepted then {l.id} else {}
  }

  // ---------------------------------------------------------------- the invariant

  ghost predicate Marked(fired: set<nat>, a: map<nat, Bytes>, ms: seq<Msg>) {
    forall m :: m in ms && !m.shutdown ==> MarkedOne(fired, a, m)
  }

  predicate MarkedOne(fired: set<nat>, a: map<nat, Bytes>, m: Msg) {
    m.id in a && (m.timeout <==> m.id in fired)
  }

  ghost predicate LogMarked(fired: set<nat>, log: seq<Entry>) {
    forall e :: e in log && e.verdict.TimedOut? ==> e.id in fired
  }

  ghost predicate Inv(fired: set<nat>, s: State) {
    && (forall id :: id in fired ==> id in s.h.accepted)
    && LogMarked(fired, s.h.log)
    && Marked(fired, s.h.accepted, s.q.list)
    && Marked(fired, s.h.accepted, Fifo.Hand(s.snd))
    && Marked(fired, s.h.accepted, s.q.chan)
  }

  // ---------------------------------------------------------------- steps

  lemma NewMessage(fired: set<nat>, h: History, bytes: Bytes, ms: seq<Msg>, m: Msg)
    requires (forall id :: id in fired ==> id in h.accepted) && Conservation.Fresh(h)
    requires Marked(fired, h.accepted, ms) && m.id == h.nextId && !m.timeout
    ensures Marked(fired, Accept(h, bytes).accepted, ms)
    ensures Marked(fired, Accept(h, bytes).accepted, ms + [m]) && Marked(fired, Accept(h, bytes).accepted, [m] + ms)
  {
  }

  lemma SendStep(fired: set<nat>, s: State, bytes: Bytes)
    requires Inv(fired, s) && Conservation.Fresh(s.h)
    ensures Inv(fired, StepSend(s, bytes))
  {
    var m := Msg(s.h.nextId, bytes, 0, false, false, false);
    NewMessage(fired, s.h, bytes, s.q.chan, m);
    NewMessage(fired, s.h, bytes, s.q.list, m);
    NewMessage(fired, s.h, bytes, Fifo.Hand(s.snd), m);
  }

  lemma WriteNowStep(fired: set<nat>, s: State, bytes: Bytes, raw: bool, written: nat)
    requires Inv(fired, s) && Conservation.Fresh(s.h)
    ensures Inv(fired, WriteNow(s, bytes, raw, written))
  {
    var m := if written >= |bytes| then Msg(s.h.nextId, bytes, 0, false, false, false)
             else HalfSent(s.h.nextId, bytes, raw, written);
    NewMessage(fired, s.h, bytes, s.q.chan, m);
    NewMessage(fired, s.h, bytes, s.q.list, m);
    NewMessage(fired, s.h, bytes, Fifo.Hand(s.snd), m);
  }

  lemma TimerMarks(fired: set<nat>, a: map<nat, Bytes>, ms: seq<Msg>, id: nat)
    requires Marked(fired, a, ms)
    ensures Marked(fired + if id in a then {id} else {}, a, SetTimeout(ms, id))
  {
    var t := SetTimeout(ms, id);
    forall m | m in t && !m.shutdown ensures MarkedOne(fired + if id in a then {id} else {}, a, m) {
      var i :| 0 <= i < |t| && t[i] == m;
      assert ms[i] in ms;
    }
  }

  lemma TimerStep(fired: set<nat>, s: State, id: nat)
    requires Inv(fired, s)
    ensures Inv(fired + FiresNow(s, Timer(id)), StepTimer(s, id))
  {
    TimerMarks(fired, s.h.accepted, s.q.chan, id);
    TimerMarks(fired, s.h.accepted, s.q.list, id);
    TimerMarks(fired, s.h.accepted, Fifo.Hand(s.snd), id);
    assert Fifo.Hand(StepTimer(s, id).snd) == SetTimeout(Fifo.Hand(s.snd), id);
  }

  lemma CloseStep(fired: set<nat>, s: State, at: ClosePc, snd: SendPc, rcv: RecvPc)
    requires Inv(fired, s) && Fifo.Hand(snd) == Fifo.Hand(s.snd)
    ensures Inv(fired, StepClose(s, at, snd, rcv))
  {
  }

  lemma ClassifyStep(fired: set<nat>, c: Config, s: State, q: Queues, m: Msg, remain: nat, inserted: nat)
    requires Inv(fired, s.(q := q, snd := Woken(m, remain, inserted)))
    ensures Inv(fired, Classify(c, s, q, m, remain, inserted))
  {
    assert m in Fifo.Hand(Woken(m, remain, inserted));
  }

  lemma FetchStep(fired: set<nat>, c: Config, s: State, remain: nat, inserted: nat)
    requires Inv(fired, s) && s.snd == Fetch(remain, inserted)
    ensures Inv(fired, StepFetch(c, s, remain, inserted))
  {
    if inserted < remain && s.q.chan != [] {
      assert s.q.chan[0] in s.q.chan;
      ClassifyStep(fired, c, s, s.q.(chan := s.q.chan[1..]), s.q.chan[0], remain, inserted);
    }
  }

  lemma ParkedStep(fired: set<nat>, s: State, remain: nat, inserted: nat)
    requires Inv(fired, s) && s.snd == Parked(remain, inserted)
    ensures Inv(fired, StepParked(s, remain, inserted))
  {
    if s.q.chan != [] {
      assert s.q.chan[0] in s.q.chan;
    }
  }

  lemma GatherStep(fired: set<nat>, c: Config, s: State, cap: nat, k: nat, bytes: Bytes)
    requires Inv(fired, s) && s.snd == Gather(cap, k, bytes)
    ensures Inv(fired, StepGather(c, s, cap, k, bytes))
  {
    if k < |s.q.list| {
      assert s.q.list[k] in s.q.list;
    }
  }

  lemma RetireStep(fired: set<nat>, s: State, n: nat)
    requires Inv(fired, s) && s.snd == Retire(n)
    ensures Inv(fired, StepRetire(s, n))
  {
    if s.q.list != [] {
      assert s.q.list[0] in s.q.list;
    }
  }

  lemma MoveStep(fired: set<nat>, c: Config, s: State, io: Io)
    requires Inv(fired, s)
    requires !s.snd.Fetch? && !s.snd.Woken? && !s.snd.Parked? && !s.snd.Gather? && !s.snd.Retire? && !s.snd.Closing?
    ensures Inv(fired, StepSender(c, s, io))
  {
    var t := StepSender(c, s, io);
    assert t.q == s.q && t.h == s.h.(wire := t.h.wire) && !t.snd.Woken?;
  }

  lemma SenderStep(fired: set<nat>, c: Config, s: State, io: Io)
    requires Inv(fired, s)
    ensures Inv(fired, StepSender(c, s, io))
  {
    match s.snd
    case Fetch(remain, inserted) => FetchStep(fired, c, s, remain, inserted);
    case Woken(m, remain, inserted) => ClassifyStep(fired, c, s, s.q, m, remain, inserted);
    case Parked(remain, inserted) => ParkedStep(fired, s, remain, inserted);
    case Gather(cap, k, bytes) => GatherStep(fired, c, s, cap, k, bytes);
    case Retire(n) => RetireStep(fired, s, n);
    case Closing(at) => CloseStep(fired, s, at, SenderAt(NextClose(s, at)), s.rcv);
    case _ => MoveStep(fired, c, s, io);
  }

  lemma ReceiverStep(fired: set<nat>, s: State, io: Io)
    requires Inv(fired, s)
    ensures Inv(fired, StepReceiver(s, io))
  {
    match s.rcv
    case RPush =>
    case RClosing(at) => CloseStep(fired, s, at, s.snd, ReceiverAt(NextClose(s, at)));
    case _ =>
  }

  lemma SendNoDelayStep(fired: set<nat>, c: Config, s: State, bytes: Bytes, raw: bool, written: int)
    requires Inv(fired, s) && Conservation.Fresh(s.h) && written <= |bytes|
    ensures Inv(fired, StepSendNoDelay(c, s, bytes, raw, written))
  {
    SendStep(fired, s, bytes);
    if written > 0 {
      WriteNowStep(fired, s, bytes, raw, written);
    }
  }

  lemma ShutdownStep(fired: set<nat>, s: State)
    requires Inv(fired, s)
    ensures Inv(fired, StepShutdown(s))
  {
  }

  lemma OtherStep(fired: set<nat>, c: Config, s: State, l: Label)
    requires Inv(fired, s) && Conservation.Fresh(s.h) && Enabled(c, s, l) && !l.Timer?
    ensures Inv(fired, Step(c, s, l))
  {
    match l
    case ApiSend(bytes) => SendStep(fired, s, bytes);
    case ApiSendNoDelay(bytes, raw, written) => SendNoDelayStep(fired, c, s, bytes, raw, written);
    case ApiShutdown => ShutdownStep(fired, s);
    case Start =>
    case Sender(io) => SenderStep(fired, c, s, io);
    case Receiver(io) => ReceiverStep(fired, s, io);
  }

  lemma InvStep(fired: set<nat>, c: Config, s: State, l: Label)
    requires Inv(fired, s) && Conservation.Fresh(s.h) && Enabled(c, s, l)
    ensures Inv(fired + FiresNow(s, l), Step(c, s, l))
  {
    if l.Timer? {
      TimerStep(fired, s, l.id);
    } else {
      assert fired + FiresNow(s, l) == fired;
      OtherStep(fired, c, s, l);
    }
  }

  lemma {:induction false} InvReachable(c: Config, ls: seq<Label>, s: State)
    requires c.Valid() && Reaches(c, ls, s)
    ensures Inv(Fired(c, ls), s)
  {
    if ls != [] {
      var before := Trace.Before(c, ls);
      InvReachable(c, ls[..|ls| - 1], before);
      GoodReachable(c, ls[..|ls| - 1], before);
      InvStep(Fired(c, ls[..|ls| - 1]), c, before, ls[|ls| - 1]);
    }
  }

  // In every run: a waiting message is marked as timed out exactly if its own timer has fired, and only such
  // messages are completed with a timeout.
  lemma MarkedExactly(c: Config, ls: seq<Label>, s: State)
    requires c.Valid() && Reaches(c, ls, s)
    ensures forall m :: m in Fifo.Waiting(s.q, s.snd) && !m.shutdown ==> (m.timeout <==> m.id in Fired(c, ls))
    ensures forall e :: e in s.h.log && e.verdict.TimedOut? ==> e.id in Fired(c, ls)
  {
    InvReachable(c, ls, s);
    forall m | m in Fifo.Waiting(s.q, s.snd) && !m.shutdown ensures m.timeout <==> m.id in Fired(c, ls) {
      assert m in s.q.list || m in Fifo.Hand(s.snd) || m in s.q.chan;
      assert MarkedOne(Fired(c, ls), s.h.accepted, m);
    }
  }
}
