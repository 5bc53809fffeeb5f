/**
 First in, first out: the messages that went through the channel reach the wire in the order in which
 they were put into it.  Ids are given out in that order, so this says that ids grow.  Holds in every
 configuration.
 */
module Fifo {
  import opened Wrappers
  import opened SendMachine
  import Close = CloseProtocol

  function Hand(p: SendPc): seq<Msg> { if p.Woken? then [p.hand] else [] }

  // Everything that waits, in the order in which it will be taken up.
  function Waiting(q: Queues, p: SendPc): seq<Msg> { q.list + Hand(p) + q.chan }

  // The channelled ones among ms have growing ids between lo and hi.
  predicate Ascending(queued: set<nat>, ms: seq<Msg>, lo: int, hi: nat) {
    if ms == [] then lo < hi
    else if ms[0].shutdown then Ascending(queued, ms[1..], lo, hi)
    else ms[0].id < hi && (ms[0].id in queued ==> lo < ms[0].id)
         && Ascending(queued, ms[1..], if ms[0].id in queued then ms[0].id else lo, hi)
  }

  // The last channelled message that was sent, or -1.
  function LastSent(queued: set<nat>, log: seq<Entry>): int {
    if log == [] then -1
    else
      var e := log[|log| - 1];
      if e.verdict.Sent? && e.id in queued then e.id else LastSent(queued, log[..|log| - 1])
  }

  predicate SentAscending(queued: set<nat>, log: seq<Entry>, hi: nat) {
    log == [] ||
    var e := log[|log| - 1];
    && SentAscending(queued, log[..|log| - 1], hi)
    && e.id < hi
    && (e.verdict.Sent? && e.id in queued ==> LastSent(queued, log[..|log| - 1]) < e.id)
  }

  ghost predicate Order(h: History, waiting: seq<Msg>) {
    && (forall id :: id in h.queued ==> id < h.nextId)
    && SentAscending(h.queued, h.log, h.nextId)
    && Ascending(h.queued, waiting, LastSent(h.queued, h.log), h.nextId)
  }

  ghost predicate Inv(s: State) { Order(s.h, Waiting(s.q, s.snd)) }

  // ---------------------------------------------------------------- facts about growing ids

  lemma {:induction false} LowerStart(queued: set<nat>, ms: seq<Msg>, lo: int, lo': int, hi: nat)
    requires Ascending(queued, ms, lo, hi) && lo' <= lo
    ensures Ascending(queued, ms, lo', hi)
  {
    if ms != [] {
      if ms[0].shutdown || ms[0].id !in queued {
        LowerStart(queued, ms[1..], lo, lo', hi);
      }
    }
  }

  lemma {:induction false} Remove(queued: set<nat>, x: seq<Msg>, m: Msg, y: seq<Msg>, lo: int, hi: nat)
    requires Ascending(queued, x + [m] + y, lo, hi)
    ensures Ascending(queued, x + y, lo, hi)
  {
    if x == [] {
      assert x + [m] + y == [m] + y && ([m] + y)[1..] == y && x + y == y;
      if m.id in queued && !m.shutdown {
        LowerStart(queued, y, m.id, lo, hi);
      }
    } else {
      assert (x + [m] + y)[1..] == x[1..] + [m] + y && (x + y)[1..] == x[1..] + y;
      var lo' := if !x[0].shutdown && x[0].id in queued then x[0].id else lo;
      Remove(queued, x[1..], m, y, lo', hi);
    }
  }

  lemma {:induction false} Append(queued: set<nat>, ms: seq<Msg>, m: Msg, lo: int, hi: nat)
    requires Ascending(queued, ms, lo, hi) && (m.shutdown || m.id == hi)
    ensures Ascending(queued, ms + [m], lo, if m.shutdown then hi else hi + 1)
    ensures !m.shutdown ==> Ascending(queued + {hi}, ms + [m], lo, hi + 1)
  {
    if ms == [] {
      assert ms + [m] == [m] && [m][1..] == [];
    } else {
      assert (ms + [m])[1..] == ms[1..] + [m];
      var lo' := if !ms[0].shutdown && ms[0].id in queued then ms[0].id else lo;
      Append(queued, ms[1..], m, lo', hi);
    }
  }

  lemma {:induction false} RaiseEnd(queued: set<nat>, ms: seq<Msg>, lo: int, hi: nat)
    requires Ascending(queued, ms, lo, hi)
    ensures Ascending(queued, ms, lo, hi + 1)
  {
    if ms != [] {
      RaiseEnd(queued, ms[1..], if !ms[0].shutdown && ms[0].id in queued then ms[0].id else lo, hi);
    }
  }

  // Changing a message without changing its id or kind.
  lemma {:induction false} Rewrite(queued: set<nat>, ms: seq<Msg>, ns: seq<Msg>, lo: int, hi: nat)
    requires Ascending(queued, ms, lo, hi) && |ns| == |ms|
    requires forall i :: 0 <= i < |ms| ==> ns[i].id == ms[i].id && ns[i].shutdown == ms[i].shutdown
    ensures Ascending(queued, ns, lo, hi)
  {
    if ms != [] {
      Rewrite(queued, ms[1..], ns[1..], if !ms[0].shutdown && ms[0].id in queued then ms[0].id else lo, hi);
    }
  }

  lemma {:induction false} LogOfLarger(queued: set<nat>, log: seq<Entry>, hi: nat)
    requires SentAscending(queued, log, hi)
    ensures SentAscending(queued, log, hi + 1) && SentAscending(queued + {hi}, log, hi + 1)
    ensures LastSent(queued + {hi}, log) == LastSent(queued, log)
  {
    if log != [] {
      LogOfLarger(queued, log[..|log| - 1], hi);
    }
  }

  lemma LogAppend(queued: set<nat>, log: seq<Entry>, e: Entry, hi: nat)
    requires SentAscending(queued, log, hi) && e.id < hi
    requires e.verdict.Sent? && e.id in queued ==> LastSent(queued, log) < e.id
    ensures SentAscending(queued, log + [e], hi)
    ensures LastSent(queued, log + [e]) == if e.verdict.Sent? && e.id in queued then e.id else LastSent(queued, log)
  {
    assert (log + [e])[..|log|] == log;
  }

  // ---------------------------------------------------------------- steps

  // Giving up a message that waits somewhere.
  lemma GiveUp(h: History, x: seq<Msg>, m: Msg, y: seq<Msg>, v: Verdict)
    requires Order(h, x + [m] + y) && !v.Sent?
    ensures Order(Done(h, m, v, 0), x + y)
  {
    var lo := LastSent(h.queued, h.log);
    Remove(h.queued, x, m, y, lo, h.nextId);
    if !m.shutdown {
      Bounded(h.queued, x, m, y, lo, h.nextId);
      LogAppend(h.queued, h.log, Entry(m.id, v, CountOf(h.accepted, m)), h.nextId);
    }
  }

  lemma {:induction false} Bounded(queued: set<nat>, x: seq<Msg>, m: Msg, y: seq<Msg>, lo: int, hi: nat)
    requires Ascending(queued, x + [m] + y, lo, hi) && !m.shutdown
    ensures m.id < hi
  {
    if x == [] {
      assert (x + [m] + y)[0] == m;
    } else {
      assert (x + [m] + y)[1..] == x[1..] + [m] + y;
      Bounded(queued, x[1..], m, y, if !x[0].shutdown && x[0].id in queued then x[0].id else lo, hi);
    }
  }

  // Completing the first waiting message with success.
  lemma SendFirst(h: History, m: Msg, y: seq<Msg>, now: nat)
    requires Order(h, [m] + y)
    ensures Order(Done(h, m, Sent, now), y)
  {
    assert ([m] + y)[1..] == y;
    if !m.shutdown {
      LogAppend(h.queued, h.log, Entry(m.id, Sent, CountOf(h.accepted, m) + now), h.nextId);
    }
  }

  lemma SendStep(s: State, bytes: Bytes)
    requires Inv(s)
    ensures Inv(StepSend(s, bytes))
  {
    if bytes != [] && !Rejecting(s.life) && |s.q.chan| < CHAN_CAP {
      var m := Msg(s.h.nextId, bytes, 0, false, false, false);
      var t := StepSend(s, bytes);
      LogOfLarger(s.h.queued, s.h.log, s.h.nextId);
      Append(s.h.queued, Waiting(s.q, s.snd), m, LastSent(s.h.queued, s.h.log), s.h.nextId);
      assert Waiting(t.q, t.snd) == Waiting(s.q, s.snd) + [m];
    }
  }

  lemma WriteNowStep(s: State, bytes: Bytes, raw: bool, written: nat)
    requires Inv(s)
    ensures Inv(WriteNow(s, bytes, raw, written))
  {
    var t, lo := WriteNow(s, bytes, raw, written), LastSent(s.h.queued, s.h.log);
    LogOfLarger(s.h.queued, s.h.log, s.h.nextId);
    RaiseEnd(s.h.queued, Waiting(s.q, s.snd), lo, s.h.nextId);
    if written >= |bytes| {
      LogAppend(s.h.queued, s.h.log, Entry(s.h.nextId, Sent, |bytes|), s.h.nextId + 1);
    } else {
      assert Waiting(t.q, t.snd) == [HalfSent(s.h.nextId, bytes, raw, written)] + Waiting(s.q, s.snd);
      assert Waiting(t.q, t.snd)[1..] == Waiting(s.q, s.snd);
    }
  }

  lemma TimerStep(s: State, id: nat)
    requires Inv(s)
    ensures Inv(StepTimer(s, id))
  {
    var t := StepTimer(s, id);
    Rewrite(s.h.queued, Waiting(s.q, s.snd), Waiting(t.q, t.snd), LastSent(s.h.queued, s.h.log), s.h.nextId);
  }

  lemma PushShutdownStep(s: State)
    requires Inv(s)
    ensures Inv(s.(q := PushShutdown(s.q)))
  {
    Append(s.h.queued, Waiting(s.q, s.snd), SHUTDOWN_MSG, LastSent(s.h.queued, s.h.log), s.h.nextId);
    assert PushShutdown(s.q) != s.q ==>
      Waiting(PushShutdown(s.q), s.snd) == Waiting(s.q, s.snd) + [SHUTDOWN_MSG];
  }

  lemma CloseStep(s: State, at: ClosePc, snd: SendPc, rcv: RecvPc)
    requires Inv(s) && Hand(s.snd) == Hand(snd) == []
    ensures Inv(StepClose(s, at, snd, rcv))
  {
    var t := StepClose(s, at, snd, rcv);
    if at.DrainChan? && s.q.chan != [] {
      assert Waiting(s.q, s.snd) == s.q.list + [s.q.chan[0]] + s.q.chan[1..];
      GiveUp(s.h, s.q.list, s.q.chan[0], s.q.chan[1..], ShutDown);
      assert Waiting(t.q, t.snd) == s.q.list + s.q.chan[1..];
    } else if at.DrainList? && s.q.list != [] {
      assert Waiting(s.q, s.snd) == [] + [s.q.list[0]] + (s.q.list[1..] + s.q.chan);
      GiveUp(s.h, [], s.q.list[0], s.q.list[1..] + s.q.chan, ShutDown);
      assert Waiting(t.q, t.snd) == [] + (s.q.list[1..] + s.q.chan);
    }
  }

  lemma ClassifyStep(c: Config, s: State, q: Queues, m: Msg, remain: nat, inserted: nat)
    requires Order(s.h, q.list + [m] + q.chan)
    ensures Inv(Classify(c, s, q, m, remain, inserted))
  {
    var t := Classify(c, s, q, m, remain, inserted);
    GiveUp(s.h, q.list, m, q.chan, TimedOut);
    assert Waiting(t.q, t.snd) == if m.shutdown || m.timeout then q.list + q.chan else q.list + [m] + q.chan;
  }

  lemma FetchStep(c: Config, s: State, remain: nat, inserted: nat)
    requires Inv(s) && s.snd == Fetch(remain, inserted)
    ensures Inv(StepFetch(c, s, remain, inserted))
  {
    if inserted < remain && s.q.chan != [] {
      var q := s.q.(chan := s.q.chan[1..]);
      assert Waiting(s.q, s.snd) == q.list + [s.q.chan[0]] + q.chan;
      ClassifyStep(c, s, q, s.q.chan[0], remain, inserted);
    }
  }

  lemma ParkedStep(s: State, remain: nat, inserted: nat)
    requires Inv(s) && s.snd == Parked(remain, inserted)
    ensures Inv(StepParked(s, remain, inserted))
  {
    var t := StepParked(s, remain, inserted);
    assert Waiting(t.q, t.snd) == Waiting(s.q, s.snd);
  }

  lemma GatherStep(c: Config, s: State, cap: nat, k: nat, bytes: Bytes)
    requires Inv(s) && s.snd == Gather(cap, k, bytes)
    ensures Inv(StepGather(c, s, cap, k, bytes))
  {
    var t := StepGather(c, s, cap, k, bytes);
    if k < |s.q.list| && s.q.list[k].timeout && !s.q.list[k].sendHalf {
      var x, m, y := s.q.list[..k], s.q.list[k], s.q.list[k + 1..] + s.q.chan;
      assert Waiting(s.q, s.snd) == x + [m] + y;
      GiveUp(s.h, x, m, y, TimedOut);
      assert Waiting(t.q, t.snd) == x + y;
    }
  }

  lemma RetireStep(s: State, n: nat)
    requires Inv(s) && s.snd == Retire(n)
    ensures Inv(StepRetire(s, n))
  {
    if s.q.list != [] && n > 0 {
      if |s.q.list[0].Rest()| <= n {
        RetireWhole(s, n);
      } else {
        RetirePart(s, n);
      }
    }
  }

  lemma RetireWhole(s: State, n: nat)
    requires Inv(s) && s.snd == Retire(n) && s.q.list != [] && |s.q.list[0].Rest()| <= n
    ensures Inv(RetireHead(s, n))
  {
    var m := s.q.list[0];
    WaitingTail(s.q);
    SendFirst(s.h, m, s.q.list[1..] + s.q.chan, |m.Rest()|);
  }

  lemma WaitingTail(q: Queues)
    requires q.list != []
    ensures q.list + [] + q.chan == [q.list[0]] + (q.list[1..] + q.chan)
    ensures q.list[1..] + [] + q.chan == q.list[1..] + q.chan
  {
  }

  lemma RetirePart(s: State, n: nat)
    requires Inv(s) && s.snd == Retire(n) && s.q.list != []
    ensures Inv(AdvanceHead(s, n))
  {
    var t := AdvanceHead(s, n);
    Rewrite(s.h.queued, Waiting(s.q, s.snd), Waiting(t.q, t.snd), LastSent(s.h.queued, s.h.log), s.h.nextId);
  }

  lemma MoveStep(c: Config, s: State, io: Io)
    requires Inv(s)
    requires !s.snd.Fetch? && !s.snd.Woken? && !s.snd.Parked? && !s.snd.Gather? && !s.snd.Retire? && !s.snd.Closing?
    ensures Inv(StepSender(c, s, io))
  {
    var t := StepSender(c, s, io);
    assert t.q == s.q && t.h == s.h.(wire := t.h.wire) && !t.snd.Woken?;
  }

  lemma SenderStep(c: Config, s: State, io: Io)
    requires Inv(s)
    ensures Inv(StepSender(c, s, io))
  {
    match s.snd
    case Fetch(remain, inserted) => FetchStep(c, s, remain, inserted);
    case Woken(m, remain, inserted) => ClassifyStep(c, s, s.q, m, remain, inserted);
    case Parked(remain, inserted) => ParkedStep(s, remain, inserted);
    case Gather(cap, k, bytes) => GatherStep(c, s, cap, k, bytes);
    case Retire(n) => RetireStep(s, n);
    case Closing(at) => CloseStep(s, at, SenderAt(NextClose(s, at)), s.rcv);
    case _ => MoveStep(c, s, io);
  }

  lemma ReceiverStep(s: State, io: Io)
    requires Inv(s) && Close.Inv(s)
    ensures Inv(StepReceiver(s, io))
  {
    match s.rcv
    case RPush => PushShutdownStep(s);
    case RClosing(at) => CloseStep(s, at, s.snd, ReceiverAt(NextClose(s, at)));
    case _ =>
  }

  lemma InvStep(c: Config, s: State, l: Label)
    requires Inv(s) && Close.Inv(s) && Enabled(c, s, l)
    ensures Inv(Step(c, s, l))
  {
    match l
    case ApiSend(bytes) => SendStep(s, bytes);
    case ApiSendNoDelay(bytes, raw, written) =>
      SendStep(s, bytes);
      if written > 0 {
        WriteNowStep(s, bytes, raw, written);
      }
    case ApiShutdown => PushShutdownStep(s);
    case Timer(id) => TimerStep(s, id);
    case Start =>
    case Sender(io) => SenderStep(c, s, io);
    case Receiver(io) => ReceiverStep(s, io);
  }
}
