/**
 What holds in every state that a run of the session can reach.
 */
module SessionRuns {
  import opened Wrappers
  import opened SendMachine
  import opened Conservation
  import Close = CloseProtocol
  import Order = ShutdownOrder
  import Wire = WireSafety
  import NoTearing
  import Fifo

  // The invariants that hold in every configuration.
  ghost predicate Good(c: Config, s: State) {
    && Close.Inv(s) && Order.Inv(s) && Order.Bounded(c, s) && Conservation.Inv(s) && Fifo.Inv(s)
    && CutInv(c, s)
  }

  lemma {:induction false} GoodReachable(c: Config, ls: seq<Label>, s: State)
    requires c.Valid() && Reaches(c, ls, s)
    ensures Good(c, s)
  {
    if ls == [] {
      GoodInit(c);
    } else {
      var before := Exec(c, ls[..|ls| - 1]).value;
      GoodReachable(c, ls[..|ls| - 1], before);
      GoodStep(c, before, ls[|ls| - 1]);
    }
  }

  lemma GoodInit(c: Config)
    ensures Good(c, INIT)
  {
    assert Fifo.Waiting(INIT.q, INIT.snd) == [];
  }

  lemma GoodStep(c: Config, s: State, l: Label)
    requires c.Valid() && Good(c, s) && Enabled(c, s, l)
    ensures Good(c, Step(c, s, l))
  {
    Close.InvStep(c, s, l);
    Order.InvStep(c, s, l);
    Order.BoundedStep(c, s, l);
    Conservation.InvStep(c, s, l);
    Fifo.InvStep(c, s, l);
    CutStep(c, s, l);
  }

  lemma {:induction false} WireReachable(c: Config, ls: seq<Label>, s: State)
    requires c.Valid() && Wire.Safe(c) && Reaches(c, ls, s)
    ensures Wire.Inv(s)
  {
    if ls != [] {
      var before := Exec(c, ls[..|ls| - 1]).value;
      WireReachable(c, ls[..|ls| - 1], before);
      GoodReachable(c, ls[..|ls| - 1], before);
      NoTearing.InvStep(c, before, ls[|ls| - 1]);
    }
  }

  // ---------------------------------------------------------------- giving up at the close

  // How many messages the close has given up.
  function GivenUp(log: seq<Entry>): nat {
    if log == [] then 0
    else GivenUp(log[..|log| - 1]) + if log[|log| - 1].verdict.ShutDown? then 1 else 0
  }

  // Once the sender has taken a shutdown message, the close gives up no more than the send list.
  ghost predicate CutInv(c: Config, s: State) {
    && (!s.life.closed ==> GivenUp(s.h.log) == 0)
    && (s.msgShutdown ==> GivenUp(s.h.log) + |s.q.list| <= c.cMulti + 1)
  }

  lemma GivenUpDone(h: History, m: Msg, v: Verdict, now: nat)
    ensures GivenUp(Done(h, m, v, now).log) == GivenUp(h.log) + if v.ShutDown? && !m.shutdown then 1 else 0
  {
    if !m.shutdown {
      assert DoneLog(h.accepted, h.log, m, v, now)[..|h.log|] == h.log;
    }
  }

  // Before the close nothing is given up, so the count follows from the size of the list.
  lemma CutOpen(c: Config, s: State, t: State)
    requires Order.Bounded(c, t) && GivenUp(s.h.log) == 0 && GivenUp(t.h.log) == GivenUp(s.h.log)
    ensures CutInv(c, t)
  {
  }

  lemma CutStep(c: Config, s: State, l: Label)
    requires c.Valid() && Enabled(c, s, l)
    requires Close.Inv(s) && Order.Inv(s) && Order.Bounded(c, s) && CutInv(c, s)
    ensures CutInv(c, Step(c, s, l))
  {
    var t := Step(c, s, l);
    match l
    case Sender(io) =>
      if s.snd.Closing? {
        CutClose(c, s, s.snd.at, SenderAt(NextClose(s, s.snd.at)), s.rcv);
      } else if s.life.closed {
        assert t.q.list == s.q.list && t.h.log == s.h.log && t.msgShutdown == s.msgShutdown;
      } else {
        CutSender(c, s, io);
        Order.BoundedSender(c, s, io);
        CutOpen(c, s, t);
      }
    case Receiver(io) =>
      if s.rcv.RClosing? {
        CutClose(c, s, s.rcv.at, s.snd, ReceiverAt(NextClose(s, s.rcv.at)));
      }
    case ApiSendNoDelay(bytes, raw, written) =>
      if written > 0 {
        CutWriteNow(c, s, bytes, raw, written);
      }
    case _ =>
  }

  lemma CutWriteNow(c: Config, s: State, bytes: Bytes, raw: bool, written: nat)
    requires CutInv(c, s) && Order.Bounded(c, s)
    ensures GivenUp(WriteNow(s, bytes, raw, written).h.log) == GivenUp(s.h.log)
  {
    assert (s.h.log + [Entry(s.h.nextId, Sent, |bytes|)])[..|s.h.log|] == s.h.log;
  }

  lemma CutSender(c: Config, s: State, io: Io)
    requires !s.snd.Closing? && GivenUp(s.h.log) == 0
    ensures GivenUp(StepSender(c, s, io).h.log) == 0
  {
    var log, log' := s.h.log, StepSender(c, s, io).h.log;
    SenderLog(c, s, io);
    if log' != log {
      assert (log + [log'[|log|]])[..|log|] == log;
    }
  }

  // At work, the sender completes at most one message a step, and gives none up.
  predicate LogGrows(log: seq<Entry>, log': seq<Entry>) {
    log' == log || (|log'| == |log| + 1 && log' == log + [log'[|log|]] && !log'[|log|].verdict.ShutDown?)
  }

  lemma SenderLog(c: Config, s: State, io: Io)
    requires !s.snd.Closing?
    ensures LogGrows(s.h.log, StepSender(c, s, io).h.log)
  {
    match s.snd
    case Fetch(remain, inserted) => FetchLog(c, s, remain, inserted);
    case Gather(cap, k, bytes) => GatherLog(c, s, cap, k, bytes);
    case Retire(n) => RetireLog(s, n);
    case _ =>
  }

  lemma FetchLog(c: Config, s: State, remain: nat, inserted: nat)
    ensures LogGrows(s.h.log, StepFetch(c, s, remain, inserted).h.log)
  {
  }

  lemma GatherLog(c: Config, s: State, cap: nat, k: nat, bytes: Bytes)
    ensures LogGrows(s.h.log, StepGather(c, s, cap, k, bytes).h.log)
  {
  }

  lemma RetireLog(s: State, n: nat)
    ensures LogGrows(s.h.log, StepRetire(s, n).h.log)
  {
  }

  lemma CutClose(c: Config, s: State, at: ClosePc, snd: SendPc, rcv: RecvPc)
    requires CutInv(c, s) && Order.Inv(s) && (s.life.closed || at.TryClose?)
    ensures CutInv(c, StepClose(s, at, snd, rcv))
  {
    if at.DrainChan? && s.q.chan != [] {
      GivenUpDone(s.h, s.q.chan[0], ShutDown, 0);
    } else if at.DrainList? && s.q.list != [] {
      GivenUpDone(s.h, s.q.list[0], ShutDown, 0);
    }
  }
}
