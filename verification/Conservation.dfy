/**
 Every accepted message is at all times in exactly one place: the channel, the send list, the hand
 of the sender, or the completed messages.  Holds in every configuration.
 */
module Conservation {
  import opened Wrappers
  import opened SendMachine
  import Close = CloseProtocol

  // ---------------------------------------------------------------- counting occurrences

  function One(m: Msg, id: nat): nat { if !m.shutdown && m.id == id then 1 else 0 }

  function Occ(ms: seq<Msg>, id: nat): nat {
    if ms == [] then 0 else One(ms[0], id) + Occ(ms[1..], id)
  }

  function LogOcc(log: seq<Entry>, id: nat): nat {
    if log == [] then 0
    else LogOcc(log[..|log| - 1], id) + if log[|log| - 1].id == id then 1 else 0
  }

  function HandOcc(p: SendPc, id: nat): nat { if p.Woken? then One(p.hand, id) else 0 }

  lemma {:induction false} OccConcat(a: seq<Msg>, b: seq<Msg>, id: nat)
    ensures Occ(a + b, id) == Occ(a, id) + Occ(b, id)
  {
    if a == [] {
      assert a + b == b;
    } else {
      assert (a + b)[1..] == a[1..] + b;
      OccConcat(a[1..], b, id);
    }
  }

  lemma OccPushBack(a: seq<Msg>, m: Msg, id: nat)
    ensures Occ(a + [m], id) == Occ(a, id) + One(m, id)
  {
    OccConcat(a, [m], id);
    assert [m][1..] == [];
  }

  lemma OccPushFront(m: Msg, a: seq<Msg>, id: nat)
    ensures Occ([m] + a, id) == One(m, id) + Occ(a, id)
  {
    assert ([m] + a)[1..] == a;
  }

  lemma OccErase(a: seq<Msg>, k: nat, id: nat)
    requires k < |a|
    ensures Occ(a, id) == Occ(a[..k] + a[k + 1..], id) + One(a[k], id)
  {
    assert a == a[..k] + ([a[k]] + a[k + 1..]);
    OccConcat(a[..k], [a[k]] + a[k + 1..], id);
    OccPushFront(a[k], a[k + 1..], id);
    OccConcat(a[..k], a[k + 1..], id);
  }

  lemma {:induction false} OccTimeout(a: seq<Msg>, fired: nat, id: nat)
    ensures Occ(SetTimeout(a, fired), id) == Occ(a, id)
  {
    if a != [] {
      assert SetTimeout(a, fired)[1..] == SetTimeout(a[1..], fired);
      OccTimeout(a[1..], fired, id);
    }
  }

  lemma {:induction false} OccOfShutdowns(a: seq<Msg>, id: nat)
    requires Close.AllShutdown(a)
    ensures Occ(a, id) == 0
  {
    if a != [] {
      OccOfShutdowns(a[1..], id);
    }
  }

  lemma LogOccDone(h: History, m: Msg, v: Verdict, now: nat, id: nat)
    ensures LogOcc(Done(h, m, v, now).log, id) == LogOcc(h.log, id) + One(m, id)
  {
    if !m.shutdown {
      assert (h.log + [Entry(m.id, v, CountOf(h.accepted, m) + now)])[..|h.log|] == h.log;
    }
  }

  // ---------------------------------------------------------------- the invariant

  // In how many places message `id` is.
  function Places(q: Queues, p: SendPc, log: seq<Entry>, id: nat): nat {
    LogOcc(log, id) + Occ(q.list, id) + HandOcc(p, id) + Occ(q.chan, id)
  }

  function Accepted(h: History, id: nat): nat { if id in h.accepted then 1 else 0 }

  ghost predicate Fresh(h: History) { forall id :: id in h.accepted ==> id < h.nextId }

  ghost predicate Inv(s: State) {
    && Fresh(s.h)
    && forall id: nat :: Places(s.q, s.snd, s.h.log, id) == Accepted(s.h, id)
  }

  // A step moves message `id` about, or takes it in, but neither loses nor doubles it.
  ghost predicate Keeps(s: State, t: State, id: nat) {
    Fresh(s.h) ==>
      (&& Fresh(t.h)
       && Places(t.q, t.snd, t.h.log, id) - Accepted(t.h, id)
          == Places(s.q, s.snd, s.h.log, id) - Accepted(s.h, id))
  }

  lemma InvStep(c: Config, s: State, l: Label)
    requires Inv(s)
    requires Enabled(c, s, l)
    ensures Inv(Step(c, s, l))
  {
    var t := Step(c, s, l);
    KeepsStep(c, s, l, 0);
    forall id: nat ensures Places(t.q, t.snd, t.h.log, id) == Accepted(t.h, id) {
      KeepsStep(c, s, l, id);
      assert Places(s.q, s.snd, s.h.log, id) == Accepted(s.h, id);
    }
  }

  lemma KeepsStep(c: Config, s: State, l: Label, id: nat)
    requires Enabled(c, s, l)
    ensures Keeps(s, Step(c, s, l), id)
  {
    match l
    case ApiSend(bytes) => SendStep(s, bytes, id);
    case ApiSendNoDelay(bytes, raw, written) =>
      SendStep(s, bytes, id);
      if written > 0 {
        WriteNowStep(s, bytes, raw, written, id);
      }
    case ApiShutdown => OccPushBack(s.q.chan, SHUTDOWN_MSG, id);
    case Timer(fired) => TimerStep(s, fired, id);
    case Start =>
    case Sender(io) => SenderStep(c, s, io, id);
    case Receiver(io) => ReceiverStep(s, io, id);
  }

  lemma SendStep(s: State, bytes: Bytes, id: nat)
    ensures Keeps(s, StepSend(s, bytes), id)
  {
    OccPushBack(s.q.chan, Msg(s.h.nextId, bytes, 0, false, false, false), id);
  }

  lemma WriteNowStep(s: State, bytes: Bytes, raw: bool, written: nat, id: nat)
    ensures Keeps(s, WriteNow(s, bytes, raw, written), id)
  {
    if written >= |bytes| {
      assert (s.h.log + [Entry(s.h.nextId, Sent, |bytes|)])[..|s.h.log|] == s.h.log;
    } else {
      OccPushFront(HalfSent(s.h.nextId, bytes, raw, written), s.q.list, id);
    }
  }

  lemma TimerStep(s: State, fired: nat, id: nat)
    ensures Keeps(s, StepTimer(s, fired), id)
  {
    OccTimeout(s.q.chan, fired, id);
    OccTimeout(s.q.list, fired, id);
  }

  lemma ReceiverStep(s: State, io: Io, id: nat)
    ensures Keeps(s, StepReceiver(s, io), id)
  {
    if s.rcv.RPush? {
      OccPushBack(s.q.chan, SHUTDOWN_MSG, id);
    } else if s.rcv.RClosing? {
      ClosingStep(s, s.rcv.at, s.snd, ReceiverAt(NextClose(s, s.rcv.at)), id);
    }
  }

  lemma CloseStep(s: State, at: ClosePc, id: nat)
    ensures var q, h := CloseQueues(s.q, at), CloseHistory(s.h, s.q, at);
      && LogOcc(h.log, id) + Occ(q.list, id) + Occ(q.chan, id)
         == LogOcc(s.h.log, id) + Occ(s.q.list, id) + Occ(s.q.chan, id)
      && h.accepted == s.h.accepted && h.nextId == s.h.nextId
  {
    if at.DrainChan? && s.q.chan != [] {
      LogOccDone(s.h, s.q.chan[0], ShutDown, 0, id);
    } else if at.DrainList? && s.q.list != [] {
      LogOccDone(s.h, s.q.list[0], ShutDown, 0, id);
    }
  }

  lemma SenderStep(c: Config, s: State, io: Io, id: nat)
    ensures Keeps(s, StepSender(c, s, io), id)
  {
    match s.snd
    case Fetch(remain, inserted) => FetchStep(c, s, remain, inserted, id);
    case Woken(m, remain, inserted) => WokenStep(c, s, m, remain, inserted, id);
    case Gather(cap, k, bytes) => GatherStep(c, s, cap, k, bytes, id);
    case Retire(n) => RetireStep(s, n, id);
    case Closing(at) => ClosingStep(s, at, SenderAt(NextClose(s, at)), s.rcv, id);
    case Parked(remain, inserted) => ParkedStep(s, remain, inserted, id);
    case _ => MoveStep(c, s, io, id);
  }

  lemma ClassifyStep(c: Config, s: State, q: Queues, m: Msg, remain: nat, inserted: nat, id: nat)
    ensures var t := Classify(c, s, q, m, remain, inserted);
      && Places(t.q, t.snd, t.h.log, id) == LogOcc(s.h.log, id) + Occ(q.list, id) + One(m, id) + Occ(q.chan, id)
      && t.h.accepted == s.h.accepted && t.h.nextId == s.h.nextId
  {
    LogOccDone(s.h, m, TimedOut, 0, id);
    OccPushBack(q.list, m, id);
  }

  lemma FetchStep(c: Config, s: State, remain: nat, inserted: nat, id: nat)
    requires s.snd == Fetch(remain, inserted)
    ensures Keeps(s, StepFetch(c, s, remain, inserted), id)
  {
    if inserted < remain && s.q.chan != [] {
      ClassifyStep(c, s, s.q.(chan := s.q.chan[1..]), s.q.chan[0], remain, inserted, id);
    }
  }

  lemma WokenStep(c: Config, s: State, m: Msg, remain: nat, inserted: nat, id: nat)
    requires s.snd == Woken(m, remain, inserted)
    ensures Keeps(s, Classify(c, s, s.q, m, remain, inserted), id)
  {
    ClassifyStep(c, s, s.q, m, remain, inserted, id);
  }

  lemma ClosingStep(s: State, at: ClosePc, snd: SendPc, rcv: RecvPc, id: nat)
    requires HandOcc(snd, id) == HandOcc(s.snd, id)
    ensures Keeps(s, StepClose(s, at, snd, rcv), id)
  {
    CloseStep(s, at, id);
  }

  lemma ParkedStep(s: State, remain: nat, inserted: nat, id: nat)
    requires s.snd == Parked(remain, inserted)
    ensures Keeps(s, StepParked(s, remain, inserted), id)
  {
  }

  // These steps leave the queues, and move at most bytes to the wire.
  lemma MoveStep(c: Config, s: State, io: Io, id: nat)
    requires !s.snd.Fetch? && !s.snd.Woken? && !s.snd.Gather? && !s.snd.Retire? && !s.snd.Closing?
    requires !s.snd.Parked?
    ensures Keeps(s, StepSender(c, s, io), id)
  {
    var t := StepSender(c, s, io);
    assert t.q == s.q && t.h == s.h.(wire := t.h.wire) && !t.snd.Woken?;
  }

  lemma GatherStep(c: Config, s: State, cap: nat, k: nat, bytes: Bytes, id: nat)
    requires s.snd == Gather(cap, k, bytes)
    ensures Keeps(s, StepGather(c, s, cap, k, bytes), id)
  {
    if k < |s.q.list| && s.q.list[k].timeout && !s.q.list[k].sendHalf {
      OccErase(s.q.list, k, id);
      LogOccDone(s.h, s.q.list[k], TimedOut, 0, id);
    }
  }

  lemma RetireStep(s: State, n: nat, id: nat)
    requires s.snd == Retire(n)
    ensures Keeps(s, StepRetire(s, n), id)
  {
    if s.q.list != [] {
      LogOccDone(s.h, s.q.list[0], Sent, |s.q.list[0].Rest()|, id);
      OccPushFront(Advanced(s.q.list, n)[0], s.q.list[1..], id);
    }
  }
}
