/**
 The close protocol: two half-shutdowns, one OnClose, one disconnect event.

 All of this holds in every configuration, however finely the actors are interleaved: the setting
 and the testing of the shutdown flags, and each step of OnClose, are steps of their own.
 */
module CloseProtocol {
  import opened Wrappers
  import opened SendMachine

  // The coroutine is inside the body of OnClose, past its try_lock.
  predicate SenderCloses(s: State) { s.snd.Closing? && !s.snd.at.TryClose? }

  predicate ReceiverCloses(s: State) { s.rcv.RClosing? && !s.rcv.at.TryClose? }

  predicate IsDisconnected(life: Life) {
    |life.events| > 0 && life.events[|life.events| - 1].Disconnected?
  }

  ghost predicate AllShutdown(ms: seq<Msg>) { forall i :: 0 <= i < |ms| ==> ms[i].shutdown }

  // connect, then receives, then at most one disconnect.
  ghost predicate Lifecycle(events: seq<Event>) {
    && (forall i :: 0 <= i < |events| ==> (events[i].Connected? <==> i == 0))
    && (forall i :: 0 <= i < |events| && events[i].Disconnected? ==> i == |events| - 1)
  }

  predicate SenderGone(p: SendPc) { p.StopTest? || p.Closing? || p.Ended? }

  predicate ReceiverGone(p: RecvPc) { p.RTest? || p.RPush? || p.RClosing? || p.REnded? }

  // OnClose has emptied the channel.
  predicate ChanFlushed(s: State) {
    (s.snd.Closing? && (s.snd.at.DrainList? || s.snd.at.Disconnecting?))
    || (s.rcv.RClosing? && (s.rcv.at.DrainList? || s.rcv.at.Disconnecting?))
    || IsDisconnected(s.life)
  }

  // OnClose has emptied the list too.
  predicate ListFlushed(s: State) {
    (s.snd.Closing? && s.snd.at.Disconnecting?)
    || (s.rcv.RClosing? && s.rcv.at.Disconnecting?)
    || IsDisconnected(s.life)
  }

  ghost predicate Inv(s: State) {
    && (s.snd.Unstarted? <==> s.rcv.RUnstarted?)
    && (s.snd.Unstarted? <==> s.life.events == [])
    && (s.life.sendDown <==> SenderGone(s.snd))
    && (s.life.recvDown <==> ReceiverGone(s.rcv))
    && (s.rcv.RFlag? || s.life.recvDown || s.life.initiative ==> s.life.closeEc != 0)
    && Lifecycle(s.life.events)
    // whoever runs OnClose has seen both flags
    && (s.snd.Closing? ==> s.life.recvDown)
    && (s.rcv.RClosing? ==> s.life.sendDown)
    // the closed_ mutex is held by exactly one runner, or by one that has finished
    && !(SenderCloses(s) && ReceiverCloses(s))
    && (SenderCloses(s) || ReceiverCloses(s) ==> s.life.closed && !IsDisconnected(s.life))
    && (IsDisconnected(s.life) ==> s.life.closed && s.life.sendDown && s.life.recvDown)
    && (s.life.closed ==> SenderCloses(s) || ReceiverCloses(s) || IsDisconnected(s.life))
    // somebody is left who will run it
    && (s.life.sendDown && s.life.recvDown && !s.life.closed ==>
          s.snd.StopTest? || s.rcv.RTest? || s.snd == Closing(TryClose) || s.rcv == RClosing(TryClose))
    // what OnClose has emptied stays empty
    && (ChanFlushed(s) ==> AllShutdown(s.q.chan))
    && (ListFlushed(s) ==> s.q.list == [])
    && (IsDisconnected(s.life) ==> s.life.events[|s.life.events| - 1].ec == s.life.closeEc)
  }

  lemma InvStep(c: Config, s: State, l: Label)
    requires Inv(s) && Enabled(c, s, l)
    ensures Inv(Step(c, s, l))
  {
    match l
    case ApiSend(bytes) =>
    case ApiSendNoDelay(bytes, raw, written) =>
    case ApiShutdown =>
    case Timer(id) =>
    case Start =>
    case Sender(io) => SenderStep(c, s, io);
    case Receiver(io) => ReceiverStep(c, s, io);
  }

  // The sender at work touches no flag, no event, nor the receiver.
  predicate Works(s: State, t: State) {
    && t.rcv == s.rcv && (t.life == s.life || t.life == s.life.(closeEc := t.life.closeEc))
    && (s.life.closeEc != 0 ==> t.life.closeEc == s.life.closeEc)
    && !SenderGone(t.snd) && !t.snd.Unstarted?
  }

  lemma WorkingSender(c: Config, s: State, io: Io)
    requires !SenderGone(s.snd) && !s.snd.StopFlag? && !s.snd.Unstarted?
    ensures Works(s, StepSender(c, s, io))
  {
  }

  lemma WorkKeepsInv(s: State, t: State)
    requires Inv(s) && !s.life.sendDown && !s.snd.Unstarted? && Works(s, t)
    ensures Inv(t)
  {
  }

  lemma SenderStep(c: Config, s: State, io: Io)
    requires Inv(s) && IoOk(s, io)
    ensures Inv(StepSender(c, s, io))
  {
    if s.snd.Closing? {
      CloseFacts(s, s.snd.at);
      CloseBySender(s, s.snd.at);
    } else if !SenderGone(s.snd) && !s.snd.StopFlag? && !s.snd.Unstarted? {
      WorkingSender(c, s, io);
      WorkKeepsInv(s, StepSender(c, s, io));
    }
  }

  lemma ReceiverStep(c: Config, s: State, io: Io)
    requires Inv(s) && IoOk(s, io)
    ensures Inv(StepReceiver(s, io))
  {
    if s.rcv.RClosing? {
      CloseFacts(s, s.rcv.at);
      CloseByReceiver(s, s.rcv.at);
    }
  }

  lemma CloseFacts(s: State, at: ClosePc)
    ensures AllShutdown(s.q.chan) ==> AllShutdown(CloseQueues(s.q, at).chan)
    ensures s.q.list == [] ==> CloseQueues(s.q, at).list == []
  {
  }

  lemma CloseBySender(s: State, at: ClosePc)
    requires Inv(s) && s.snd == Closing(at)
    ensures Inv(StepClose(s, at, SenderAt(NextClose(s, at)), s.rcv))
  {
    CloseFacts(s, at);
  }

  lemma CloseByReceiver(s: State, at: ClosePc)
    requires Inv(s) && s.rcv == RClosing(at)
    ensures Inv(StepClose(s, at, s.snd, ReceiverAt(NextClose(s, at))))
  {
    CloseFacts(s, at);
  }

  lemma {:induction false} InvReachable(c: Config, ls: seq<Label>, s: State)
    requires Reaches(c, ls, s)
    ensures Inv(s)
  {
    if ls != [] {
      var before := Exec(c, ls[..|ls| - 1]).value;
      InvReachable(c, ls[..|ls| - 1], before);
      InvStep(c, before, ls[|ls| - 1]);
    }
  }
}
