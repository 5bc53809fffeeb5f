/**
 Graceful shutdown, and the size of the send list.

 No message to be sent is ever queued behind a shutdown message, so once the sender has taken a
 shutdown message, everything not yet written is in its send list; and that list holds at most one
 batch, plus one message that SendNoDelay left half-sent.  Both hold in every configuration.
 */
module ShutdownOrder {
  import opened Wrappers
  import opened SendMachine
  import Close = CloseProtocol

  predicate HandIsShutdown(s: State) { s.snd.Woken? && s.snd.hand.shutdown }

  // The sender, or its hand, has taken a shutdown message.
  predicate Taken(s: State) { s.msgShutdown || HandIsShutdown(s) }

  ghost predicate Ordered(chan: seq<Msg>) {
    forall i, j :: 0 <= i < j < |chan| && chan[i].shutdown ==> chan[j].shutdown
  }

  ghost predicate Inv(s: State) {
    && Ordered(s.q.chan)
    && (forall i :: 0 <= i < |s.q.chan| && s.q.chan[i].shutdown ==> Rejecting(s.life))
    && (Taken(s) ==> Rejecting(s.life) && Close.AllShutdown(s.q.chan))
    && (s.snd == StopFlag(false) ==> s.msgShutdown)
    && (s.snd.Woken? ==> !s.msgShutdown) && (s.snd.Parked? ==> !s.msgShutdown)
    && (s.snd.Fetch? ==> !s.msgShutdown)
    && (s.snd.Unstarted? || s.snd.Ready? ==> !s.msgShutdown)
  }

  lemma PushKeepsOrder(s: State)
    requires Inv(s)
    ensures Ordered(PushShutdown(s.q).chan)
    ensures Close.AllShutdown(s.q.chan) ==> Close.AllShutdown(PushShutdown(s.q).chan)
  {
  }

  lemma InvStep(c: Config, s: State, l: Label)
    requires Inv(s) && Close.Inv(s) && Enabled(c, s, l)
    ensures Inv(Step(c, s, l))
  {
    match l
    case Sender(io) => SenderStep(c, s, io);
    case Receiver(io) => ReceiverStep(s, io);
    case ApiShutdown => PushKeepsOrder(s);
    case ApiSendNoDelay(bytes, raw, written) => SendNoDelayStep(c, s, bytes, raw, written);
    case _ =>
  }

  lemma SendNoDelayStep(c: Config, s: State, bytes: Bytes, raw: bool, written: int)
    requires Inv(s) && written <= |bytes|
    ensures Inv(StepSendNoDelay(c, s, bytes, raw, written))
  {
  }

  lemma ReceiverStep(s: State, io: Io)
    requires Inv(s) && Close.Inv(s)
    ensures Inv(StepReceiver(s, io))
  {
    PushKeepsOrder(s);
    if s.q.chan != [] {
      PopKeepsOrder(s.q.chan);
    }
  }

  lemma SenderStep(c: Config, s: State, io: Io)
    requires Inv(s) && Close.Inv(s) && IoOk(s, io)
    ensures Inv(StepSender(c, s, io))
  {
    if (s.snd.Fetch? || s.snd.Parked?) && s.q.chan != [] {
      PopKeepsOrder(s.q.chan);
    }
    if s.snd.Woken? {
      ClassifyKeepsInv(c, s, s.q, s.snd.hand, s.snd.remain, s.snd.inserted);
    } else if s.snd.Fetch? {
      FetchKeepsInv(c, s, s.snd.remain, s.snd.inserted);
    } else {
      OtherKeepsInv(c, s, io);
    }
  }

  lemma PopKeepsOrder(chan: seq<Msg>)
    requires chan != [] && Ordered(chan)
    ensures Ordered(chan[1..])
    ensures chan[0].shutdown ==> Close.AllShutdown(chan[1..])
    ensures Close.AllShutdown(chan) ==> Close.AllShutdown(chan[1..])
  {
  }

  lemma ClassifyKeepsInv(c: Config, s: State, q: Queues, m: Msg, remain: nat, inserted: nat)
    requires Inv(s.(q := q, snd := Woken(m, remain, inserted)))
    ensures Inv(Classify(c, s, q, m, remain, inserted))
  {
  }

  lemma FetchKeepsInv(c: Config, s: State, remain: nat, inserted: nat)
    requires Inv(s) && s.snd == Fetch(remain, inserted)
    ensures Inv(StepFetch(c, s, remain, inserted))
  {
    if s.q.chan != [] {
      PopKeepsOrder(s.q.chan);
      var q := s.q.(chan := s.q.chan[1..]);
      assert forall i :: 0 <= i < |q.chan| ==> q.chan[i] == s.q.chan[i + 1];
      ClassifyKeepsInv(c, s, q, s.q.chan[0], remain, inserted);
    }
  }

  // What the sender leaves alone outside its fetch loop.
  predicate LeavesChan(s: State, t: State) {
    && t.q.chan == s.q.chan && t.msgShutdown == s.msgShutdown
    && (Rejecting(s.life) ==> Rejecting(t.life))
    && !t.snd.Woken? && !t.snd.Parked? && !t.snd.Unstarted? && !t.snd.Ready?
    && (t.snd.Fetch? || t.snd == StopFlag(false) ==> s.snd.Top?)
    && (t.snd.Fetch? ==> !s.msgShutdown) && (t.snd == StopFlag(false) ==> s.msgShutdown)
  }

  lemma BatchLeavesChan(c: Config, s: State, io: Io)
    requires s.snd.Gather? || s.snd.Write? || s.snd.Poll? || s.snd.Retire?
    ensures LeavesChan(s, StepSender(c, s, io))
  {
  }

  lemma OtherKeepsInv(c: Config, s: State, io: Io)
    requires Inv(s) && Close.Inv(s) && !s.snd.Woken? && !s.snd.Fetch?
    ensures Inv(StepSender(c, s, io))
  {
    if s.snd.Gather? || s.snd.Write? || s.snd.Poll? || s.snd.Retire? {
      BatchLeavesChan(c, s, io);
    } else if s.snd.Closing? {
      if s.q.chan != [] {
        PopKeepsOrder(s.q.chan);
      }
      Close.CloseFacts(s, s.snd.at);
    } else if s.snd.Parked? && s.q.chan != [] {
      PopKeepsOrder(s.q.chan);
    }
  }

  // ---------------------------------------------------------------- the batch bound

  function Extra(q: Queues): nat { if q.sending then 1 else 0 }

  ghost predicate Bounded(c: Config, s: State) {
    && |s.q.list| <= c.cMulti + Extra(s.q)
    && match s.snd
       case Fetch(remain, inserted) =>
         inserted <= remain && |s.q.list| + remain - inserted <= c.cMulti + Extra(s.q)
         && inserted <= |s.q.list| && remain <= c.cMulti && (remain == 0 ==> s.q.list != [])
         && |s.q.list| + remain - inserted >= c.cMulti
       case Parked(remain, inserted) =>
         inserted == 0 && 1 <= remain <= c.cMulti && Lone(s.q) && |s.q.list| + remain >= c.cMulti
       case Woken(_, remain, inserted) =>
         inserted == 0 && 1 <= remain <= c.cMulti && Lone(s.q) && |s.q.list| + remain >= c.cMulti
       case Ready => Lone(s.q)
       case Unstarted => Lone(s.q)
       case Gather(cap, k, _) => k <= cap && k <= |s.q.list| && Min(|s.q.list|, c.cMulti) <= cap <= c.cMulti
       case Write(k, _) => 1 <= k == Min(|s.q.list|, c.cMulti)
       case Poll(k, _) => 1 <= k == Min(|s.q.list|, c.cMulti)
       case _ => true
  }

  // While the sender is out of the way, the list holds the half-sent message, if there is one, and `sending_`
  // tells whether there is.
  predicate Lone(q: Queues) { |q.list| == Extra(q) }

  lemma BoundedStep(c: Config, s: State, l: Label)
    requires c.Valid() && Bounded(c, s) && Close.Inv(s) && Enabled(c, s, l)
    ensures Bounded(c, Step(c, s, l))
  {
    match l
    case Sender(io) => BoundedSender(c, s, io);
    case Receiver(io) => BoundedReceiver(c, s, io);
    case ApiSendNoDelay(bytes, raw, written) => BoundedSendNoDelay(c, s, bytes, raw, written);
    case _ =>
  }

  lemma BoundedSendNoDelay(c: Config, s: State, bytes: Bytes, raw: bool, written: int)
    requires Bounded(c, s) && written <= |bytes|
    ensures Bounded(c, StepSendNoDelay(c, s, bytes, raw, written))
  {
  }

  lemma BoundedReceiver(c: Config, s: State, io: Io)
    requires Bounded(c, s) && Close.Inv(s)
    ensures Bounded(c, StepReceiver(s, io))
  {
  }

  lemma BoundedSender(c: Config, s: State, io: Io)
    requires c.Valid() && Bounded(c, s) && IoOk(s, io)
    ensures Bounded(c, StepSender(c, s, io))
  {
    match s.snd
    case Fetch(remain, inserted) => BoundedFetch(c, s, remain, inserted);
    case Gather(cap, k, bytes) => BoundedGather(c, s, cap, k, bytes);
    case Retire(n) => BoundedRetire(c, s, n);
    case Write(k, bytes) => BoundedIo(c, s, io);
    case Poll(k, bytes) => BoundedIo(c, s, io);
    case Woken(m, remain, inserted) => BoundedWoken(c, s, m, remain, inserted);
    case Closing(at) => BoundedClosing(c, s, at);
    case _ => BoundedMove(c, s, io);
  }

  lemma BoundedMove(c: Config, s: State, io: Io)
    requires c.Valid() && Bounded(c, s)
    requires s.snd.Unstarted? || s.snd.Ready? || s.snd.Top? || s.snd.Parked? || s.snd.StopFlag? || s.snd.StopTest?
             || s.snd.Ended?
    ensures Bounded(c, StepSender(c, s, io))
  {
  }

  lemma BoundedWoken(c: Config, s: State, m: Msg, remain: nat, inserted: nat)
    requires Bounded(c, s) && s.snd == Woken(m, remain, inserted)
    ensures Bounded(c, Classify(c, s, s.q, m, remain, inserted))
  {
  }

  lemma BoundedClosing(c: Config, s: State, at: ClosePc)
    requires Bounded(c, s)
    ensures Bounded(c, StepClose(s, at, SenderAt(NextClose(s, at)), s.rcv))
  {
  }

  lemma BoundedIo(c: Config, s: State, io: Io)
    requires Bounded(c, s) && (s.snd.Write? || s.snd.Poll?)
    ensures Bounded(c, StepSender(c, s, io))
  {
  }

  lemma BoundedRetire(c: Config, s: State, n: nat)
    requires Bounded(c, s) && s.snd == Retire(n)
    ensures Bounded(c, StepRetire(s, n))
  {
  }

  lemma BoundedFetch(c: Config, s: State, remain: nat, inserted: nat)
    requires c.Valid() && Bounded(c, s) && s.snd == Fetch(remain, inserted)
    ensures Bounded(c, StepFetch(c, s, remain, inserted))
  {
  }

  lemma BoundedGather(c: Config, s: State, cap: nat, k: nat, bytes: Bytes)
    requires c.Valid() && Bounded(c, s) && s.snd == Gather(cap, k, bytes)
    ensures Bounded(c, StepGather(c, s, cap, k, bytes))
  {
  }
}
