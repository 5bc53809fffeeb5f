/**
 What the state has to be according to the labels of a run: which messages the user has handed over, how many
 bytes the socket has taken, what the close reason is, how often data has been received.
 */
module Trace {
  import opened Wrappers
  import opened SendMachine
  import Close = CloseProtocol

  // ---------------------------------------------------------------- what one step means

  predicate ShuttingDown(s: State) { s.life.recvDown || s.life.sendDown || s.life.initiative }

  // The call writes by itself, and the socket takes something.
  predicate Direct(c: Config, s: State, l: Label) {
    && l.ApiSendNoDelay? && l.written > 0 && !c.ssl && !LockHeld(s.snd) && !s.q.sending
    && (c.guard ==> s.q.list == [])
  }

  // The call takes the message over; the callback comes now or later.
  predicate TakesOver(c: Config, s: State, l: Label) {
    && (l.ApiSend? || l.ApiSendNoDelay?) && l.bytes != [] && !ShuttingDown(s)
    && (Direct(c, s, l) || |s.q.chan| < CHAN_CAP)
  }

  // How many bytes the socket takes.
  function TakenNow(c: Config, s: State, l: Label): int {
    if l.Sender? then (if s.snd.Write? && l.io.Wrote? then l.io.n else 0)
    else if TakesOver(c, s, l) && Direct(c, s, l) then l.written
    else 0
  }

  // The reason to close that turns up; 0 if none does.
  function ReasonNow(s: State, l: Label): int {
    match l
    case Receiver(Failed(ec)) => if s.rcv.Reading? then ec else 0
    case Sender(Failed(ec)) => if s.snd.Write? || s.snd.Poll? then ec else 0
    case ApiShutdown => 3
    case _ => 0
  }

  predicate ReceivesNow(s: State, l: Label) { l == Receiver(Data) && s.rcv.Reading? }

  // ---------------------------------------------------------------- what a run means

  // The state before the last step.
  function Before(c: Config, ls: seq<Label>): State
    requires ls != []
  {
    var before := Exec(c, ls[..|ls| - 1]);
    if before.Some? then before.value else INIT
  }

  // The messages taken over, in order, and whether the call wrote by itself.
  function Messages(c: Config, ls: seq<Label>): seq<(Bytes, bool)> {
    if ls == [] then []
    else
      var s, l := Before(c, ls), ls[|ls| - 1];
      Messages(c, ls[..|ls| - 1]) + if TakesOver(c, s, l) then [(l.bytes, Direct(c, s, l))] else []
  }

  function BytesTaken(c: Config, ls: seq<Label>): int {
    if ls == [] then 0
    else BytesTaken(c, ls[..|ls| - 1]) + TakenNow(c, Before(c, ls), ls[|ls| - 1])
  }

  function FirstReason(c: Config, ls: seq<Label>): int {
    if ls == [] then 0
    else
      var first := FirstReason(c, ls[..|ls| - 1]);
      if first != 0 then first else ReasonNow(Before(c, ls), ls[|ls| - 1])
  }

  function Receives(c: Config, ls: seq<Label>): nat {
    if ls == [] then 0
    else Receives(c, ls[..|ls| - 1]) + if ReceivesNow(Before(c, ls), ls[|ls| - 1]) then 1 else 0
  }

  function ReceivedEvents(events: seq<Event>): nat {
    if events == [] then 0
    else ReceivedEvents(events[..|events| - 1]) + if events[|events| - 1].Received? then 1 else 0
  }

  // ---------------------------------------------------------------- steps

  predicate SameMessages(h: History, h': History) {
    h'.accepted == h.accepted && h'.nextId == h.nextId && h'.queued == h.queued
  }

  lemma MessagesStep(c: Config, s: State, l: Label)
    requires Enabled(c, s, l)
    ensures var h, h' := s.h, Step(c, s, l).h;
      if TakesOver(c, s, l) then
        && h'.nextId == h.nextId + 1 && h'.accepted == h.accepted[h.nextId := l.bytes]
        && h'.queued == h.queued + if Direct(c, s, l) then {} else {h.nextId}
      else SameMessages(h, h')
  {
    match l
    case Sender(io) => SenderTakesNone(c, s, io);
    case Receiver(io) => assert SameMessages(s.h, StepReceiver(s, io).h);
    case _ =>
  }

  lemma SenderTakesNone(c: Config, s: State, io: Io)
    ensures SameMessages(s.h, StepSender(c, s, io).h)
  {
  }

  lemma WireStep(c: Config, s: State, l: Label)
    requires Enabled(c, s, l)
    ensures |Step(c, s, l).h.wire| == |s.h.wire| + TakenNow(c, s, l)
  {
    match l
    case Sender(io) => SenderWrites(c, s, io);
    case Receiver(io) => assert StepReceiver(s, io).h.wire == s.h.wire;
    case _ =>
  }

  lemma SenderWrites(c: Config, s: State, io: Io)
    requires IoOk(s, io)
    ensures |StepSender(c, s, io).h.wire| == |s.h.wire| + if s.snd.Write? && io.Wrote? then io.n else 0
  {
  }

  // The first reason stays.
  function Either(first: int, other: int): int { if first != 0 then first else other }

  lemma ReasonStep(c: Config, s: State, l: Label)
    ensures Step(c, s, l).life.closeEc == Either(s.life.closeEc, ReasonNow(s, l))
  {
    match l
    case Sender(io) => SenderReason(c, s, io);
    case Receiver(io) => ReceiverReason(s, io);
    case _ =>
  }

  lemma ReceiverReason(s: State, io: Io)
    ensures StepReceiver(s, io).life.closeEc == Either(s.life.closeEc, ReasonNow(s, Receiver(io)))
  {
  }

  lemma SenderReason(c: Config, s: State, io: Io)
    ensures StepSender(c, s, io).life.closeEc == Either(s.life.closeEc, ReasonNow(s, Sender(io)))
  {
    match s.snd
    case Write(k, bytes) =>
    case Poll(k, bytes) =>
    case _ => KeepsReason(c, s, io);
  }

  lemma KeepsReason(c: Config, s: State, io: Io)
    requires !s.snd.Write? && !s.snd.Poll?
    ensures StepSender(c, s, io).life.closeEc == s.life.closeEc
  {
    match s.snd
    case Fetch(remain, inserted) => assert StepFetch(c, s, remain, inserted).life == s.life;
    case Gather(cap, k, bytes) => assert StepGather(c, s, cap, k, bytes).life == s.life;
    case Retire(n) => assert StepRetire(s, n).life == s.life;
    case _ =>
  }

  lemma OneEvent(events: seq<Event>, e: Event)
    ensures ReceivedEvents(events + [e]) == ReceivedEvents(events) + if e.Received? then 1 else 0
  {
    assert (events + [e])[..|events|] == events;
  }

  lemma ReceivesStep(c: Config, s: State, l: Label)
    ensures ReceivedEvents(Step(c, s, l).life.events)
            == ReceivedEvents(s.life.events) + if ReceivesNow(s, l) then 1 else 0
  {
    match l
    case Sender(io) => SenderReceives(c, s, io);
    case Receiver(io) => ReceiverReceives(s, io);
    case Start => OneEvent(s.life.events, Connected);
    case _ =>
  }

  lemma SenderReceives(c: Config, s: State, io: Io)
    ensures ReceivedEvents(StepSender(c, s, io).life.events) == ReceivedEvents(s.life.events)
  {
    if s.snd.Closing? {
      OneEvent(s.life.events, Disconnected(s.life.closeEc));
    } else if !Close.SenderGone(s.snd) && !s.snd.StopFlag? && !s.snd.Unstarted? {
      Close.WorkingSender(c, s, io);
    }
  }

  lemma ReceiverReceives(s: State, io: Io)
    ensures ReceivedEvents(StepReceiver(s, io).life.events)
            == ReceivedEvents(s.life.events) + if ReceivesNow(s, Receiver(io)) then 1 else 0
  {
    match s.rcv
    case Reading => OneEvent(s.life.events, Received);
    case RClosing(at) => OneEvent(s.life.events, Disconnected(s.life.closeEc));
    case _ => assert StepReceiver(s, io).life.events == s.life.events;
  }

  // ---------------------------------------------------------------- results

  ghost predicate Agree(h: History, ms: seq<(Bytes, bool)>) {
    && h.nextId == |ms|
    && (forall id: nat :: id in h.accepted <==> id < |ms|)
    && (forall id: nat :: id < |ms| ==> h.accepted[id] == ms[id].0)
    && (forall id: nat :: id in h.queued <==> id < |ms| && !ms[id].1)
  }

  lemma AgreeOnOneMore(h: History, ms: seq<(Bytes, bool)>, m: (Bytes, bool), h': History)
    requires Agree(h, ms) && h'.nextId == h.nextId + 1 && h'.accepted == h.accepted[h.nextId := m.0]
    requires h'.queued == h.queued + if m.1 then {} else {h.nextId}
    ensures Agree(h', ms + [m])
  {
  }

  // The accepted messages are those handed over, byte for byte, numbered in their order; those that were not
  // written at once have been queued.
  lemma {:induction false} AcceptedAreHandedOver(c: Config, ls: seq<Label>, s: State)
    requires Reaches(c, ls, s)
    ensures Agree(s.h, Messages(c, ls))
  {
    if ls != [] {
      var before, l, ms := Before(c, ls), ls[|ls| - 1], Messages(c, ls[..|ls| - 1]);
      AcceptedAreHandedOver(c, ls[..|ls| - 1], before);
      MessagesStep(c, before, l);
      if TakesOver(c, before, l) {
        AgreeOnOneMore(before.h, ms, (l.bytes, Direct(c, before, l)), s.h);
      } else {
        assert Messages(c, ls) == ms;
      }
    }
  }

  // The wire is as long as the socket has said.
  lemma {:induction false} WireIsWhatWasTaken(c: Config, ls: seq<Label>, s: State)
    requires Reaches(c, ls, s)
    ensures |s.h.wire| == BytesTaken(c, ls)
  {
    if ls != [] {
      var before := Before(c, ls);
      WireIsWhatWasTaken(c, ls[..|ls| - 1], before);
      WireStep(c, before, ls[|ls| - 1]);
    }
  }

  // The close reason is the first that turned up: the error of a read, a write or a poll, or Shutdown.
  lemma {:induction false} ReasonIsTheFirst(c: Config, ls: seq<Label>, s: State)
    requires Reaches(c, ls, s)
    ensures s.life.closeEc == FirstReason(c, ls)
  {
    if ls != [] {
      var before := Before(c, ls);
      ReasonIsTheFirst(c, ls[..|ls| - 1], before);
      ReasonStep(c, before, ls[|ls| - 1]);
    }
  }

  // The receive callback is called once for every successful read.
  lemma {:induction false} EveryReadIsDelivered(c: Config, ls: seq<Label>, s: State)
    requires Reaches(c, ls, s)
    ensures ReceivedEvents(s.life.events) == Receives(c, ls)
  {
    if ls != [] {
      var before := Before(c, ls);
      EveryReadIsDelivered(c, ls[..|ls| - 1], before);
      ReceivesStep(c, before, ls[|ls| - 1]);
    }
  }
}
