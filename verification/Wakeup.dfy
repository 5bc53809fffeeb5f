/**
 No shutdown is slept through.

 Shutdown and ShutdownRecv wake the sender with a message.  A sender that blocks on the channel has looked at
 the flag of Shutdown before, but not at that of ShutdownRecv, so for the latter the message must not get
 lost: it does exactly if the channel is full.
 */
module Wakeup {
  import opened Wrappers
  import opened SendMachine
  import opened SessionRuns
  import Close = CloseProtocol
  import Order = ShutdownOrder

  // On its way to shutting down its half, or past that.
  predicate Stopping(p: SendPc) { p.StopFlag? || Close.SenderGone(p) }

  // A shutdown message is in the channel, in hand, or taken.
  predicate Notified(s: State) {
    Order.Taken(s) || (s.q.chan != [] && s.q.chan[|s.q.chan| - 1].shutdown)
  }

  ghost predicate AllData(ms: seq<Msg>) { forall i :: 0 <= i < |ms| ==> !ms[i].shutdown }

  // The step in which ShutdownRecv finds the channel full.
  predicate LostNow(s: State, l: Label) { l.Receiver? && s.rcv.RPush? && |s.q.chan| >= CHAN_CAP }

  // There has been such a step.
  predicate Lost(c: Config, ls: seq<Label>) {
    ls != [] &&
    var before := Exec(c, ls[..|ls| - 1]);
    Lost(c, ls[..|ls| - 1]) || (before.Some? && LostNow(before.value, ls[|ls| - 1]))
  }

  ghost predicate Inv(lost: bool, s: State) {
    && (s.snd.Parked? && s.life.initiative ==> s.q.chan != [])
    && (s.rcv.REnded? && !lost && !Stopping(s.snd) ==> Notified(s))
    && (lost ==> s.rcv.REnded?)
    && (!s.life.initiative && (lost || !s.rcv.REnded?) ==> !Order.Taken(s) && AllData(s.q.chan))
  }

  lemma InvStep(c: Config, lost: bool, s: State, l: Label)
    requires Inv(lost, s) && Close.Inv(s) && Order.Inv(s) && Enabled(c, s, l)
    ensures Inv(lost || LostNow(s, l), Step(c, s, l))
  {
    match l
    case ApiSend(bytes) => SendStep(lost, s, bytes);
    case ApiSendNoDelay(bytes, raw, written) => SendNoDelayStep(c, lost, s, bytes, raw, written);
    case ApiShutdown => ShutdownStep(lost, s);
    case Timer(id) => TimerStep(lost, s, id);
    case Start =>
    case Sender(io) => SenderStep(c, lost, s, io);
    case Receiver(io) => ReceiverStep(lost, s, io);
  }

  lemma SendStep(lost: bool, s: State, bytes: Bytes)
    requires Inv(lost, s) && Close.Inv(s)
    ensures Inv(lost, StepSend(s, bytes))
  {
  }

  lemma SendNoDelayStep(c: Config, lost: bool, s: State, bytes: Bytes, raw: bool, written: int)
    requires Inv(lost, s) && Close.Inv(s) && written <= |bytes|
    ensures Inv(lost, StepSendNoDelay(c, s, bytes, raw, written))
  {
    SendStep(lost, s, bytes);
  }

  lemma ShutdownStep(lost: bool, s: State)
    requires Inv(lost, s) && Order.Inv(s)
    ensures Inv(lost, StepShutdown(s))
  {
  }

  lemma TimerStep(lost: bool, s: State, id: nat)
    requires Inv(lost, s)
    ensures Inv(lost, StepTimer(s, id))
  {
  }

  lemma ReceiverStep(lost: bool, s: State, io: Io)
    requires Inv(lost, s) && Close.Inv(s)
    ensures Inv(lost || LostNow(s, Receiver(io)), StepReceiver(s, io))
  {
    if s.rcv.RPush? {
      PushStep(lost, s);
    } else if s.rcv.RClosing? {
      assert Close.SenderGone(s.snd);
    }
  }

  lemma PushStep(lost: bool, s: State)
    requires Inv(lost, s) && s.rcv.RPush?
    ensures Inv(lost || |s.q.chan| >= CHAN_CAP, s.(q := PushShutdown(s.q), rcv := REnded))
  {
  }

  lemma SenderStep(c: Config, lost: bool, s: State, io: Io)
    requires Inv(lost, s) && Close.Inv(s) && Order.Inv(s)
    ensures Inv(lost, StepSender(c, s, io))
  {
    match s.snd
    case Fetch(remain, inserted) => FetchStep(c, lost, s, remain, inserted);
    case Parked(remain, inserted) => ParkedStep(lost, s, remain, inserted);
    case Woken(m, remain, inserted) => WokenStep(c, lost, s, m, remain, inserted);
    case _ => OtherStep(c, lost, s, io);
  }

  lemma FetchStep(c: Config, lost: bool, s: State, remain: nat, inserted: nat)
    requires Inv(lost, s) && Order.Inv(s) && s.snd == Fetch(remain, inserted)
    ensures Inv(lost, StepFetch(c, s, remain, inserted))
  {
  }

  lemma ParkedStep(lost: bool, s: State, remain: nat, inserted: nat)
    requires Inv(lost, s) && Order.Inv(s) && s.snd == Parked(remain, inserted)
    ensures Inv(lost, StepParked(s, remain, inserted))
  {
  }

  lemma WokenStep(c: Config, lost: bool, s: State, m: Msg, remain: nat, inserted: nat)
    requires Inv(lost, s) && Order.Inv(s) && s.snd == Woken(m, remain, inserted)
    ensures Inv(lost, Classify(c, s, s.q, m, remain, inserted))
  {
  }

  lemma OtherStep(c: Config, lost: bool, s: State, io: Io)
    requires Inv(lost, s) && Close.Inv(s) && Order.Inv(s)
    requires !s.snd.Fetch? && !s.snd.Parked? && !s.snd.Woken?
    ensures Inv(lost, StepSender(c, s, io))
  {
    if s.snd.Closing? {
    } else if Stopping(s.snd) || s.snd.Unstarted? || s.snd.Ready? || s.snd.Top? {
      assert StepSender(c, s, io).q == s.q;
    } else {
      Order.BatchLeavesChan(c, s, io);
      Close.WorkingSender(c, s, io);
    }
  }

  lemma {:induction false} InvReachable(c: Config, ls: seq<Label>, s: State)
    requires c.Valid() && Reaches(c, ls, s)
    ensures Inv(Lost(c, ls), s)
  {
    if ls != [] {
      var before := Exec(c, ls[..|ls| - 1]).value;
      InvReachable(c, ls[..|ls| - 1], before);
      GoodReachable(c, ls[..|ls| - 1], before);
      InvStep(c, Lost(c, ls[..|ls| - 1]), before, ls[|ls| - 1]);
    }
  }

  // A sender asleep on an empty channel has not been asked to stop by the user; and if the receiver has shut
  // down its half, then its message was lost.
  lemma NeverSleepsThrough(c: Config, ls: seq<Label>, s: State)
    requires c.Valid() && Reaches(c, ls, s) && s.snd.Parked? && s.q.chan == []
    ensures !s.life.initiative
    ensures s.rcv.REnded? ==> Lost(c, ls)
  {
    InvReachable(c, ls, s);
    GoodReachable(c, ls, s);
  }
}
