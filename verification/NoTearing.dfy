/**
 The wire invariant is kept by every step of every actor.
 */
module NoTearing {
  import opened Wrappers
  import opened SendMachine
  import opened WireSafety
  import Close = CloseProtocol
  import Order = ShutdownOrder
  import Conservation

  // ---------------------------------------------------------------- the user's steps

  lemma AcceptKeepsInv(s: State, bytes: Bytes)
    requires Inv(s) && Conservation.Fresh(s.h)
    ensures Inv(s.(h := Accept(s.h, bytes)))
  {
    var a, id := s.h.accepted, s.h.nextId;
    BaseOfLarger(a, id, bytes, s.h.log);
    AllUntouchedOfLarger(a, id, bytes, s.q.chan, false);
    AcceptKeepsList(a, id, bytes, s.q.list);
  }

  lemma SendStep(s: State, bytes: Bytes)
    requires Inv(s) && Conservation.Fresh(s.h)
    ensures Inv(StepSend(s, bytes))
  {
    if bytes != [] && !Rejecting(s.life) && |s.q.chan| < CHAN_CAP {
      AcceptKeepsInv(s, bytes);
      var m := Msg(s.h.nextId, bytes, 0, false, false, false);
      assert m.Rest() == bytes;
      PushBack(Accept(s.h, bytes).accepted, s.q.chan, m, false);
    }
  }

  lemma WriteWholeStep(s: State, bytes: Bytes, raw: bool)
    requires Inv(s) && Conservation.Fresh(s.h) && bytes != []
    requires s.q.list == [] && !s.life.closed && Pending(s.snd) == 0
    ensures Inv(WriteNow(s, bytes, raw, |bytes|))
  {
    AcceptKeepsInv(s, bytes);
    var h := Accept(s.h, bytes);
    LogSent(h.accepted, h.log, s.h.nextId);
    NothingPending(s.h.accepted, s.q.list);
    NothingPending(h.accepted, s.q.list);
    var t := WriteNow(s, bytes, raw, |bytes|);
    assert Accounted(t.h, t.q, t.life.closed, t.snd);
  }

  lemma WritePartStep(s: State, bytes: Bytes, raw: bool, written: nat)
    requires Inv(s) && Conservation.Fresh(s.h) && 0 < written < |bytes|
    requires s.q.list == [] && !s.life.closed && Pending(s.snd) == 0
    requires !HasBatch(s.snd)
    ensures Inv(WriteNow(s, bytes, raw, written))
  {
    AcceptKeepsInv(s, bytes);
    var h, t := Accept(s.h, bytes), WriteNow(s, bytes, raw, written);
    var m := HalfSent(s.h.nextId, bytes, raw, written);
    assert [m] + s.q.list == [m];
    WritePartWire(h, s.q, s.snd, raw, written);
    assert t.h == h.(wire := h.wire + bytes[..written]) && t.q == Queues(s.q.chan, [m], true);
  }

  lemma WritePartWire(h: History, q: Queues, p: SendPc, raw: bool, written: nat)
    requires Accounted(h, q, false, p) && q.list == [] && Pending(p) == 0 && !HasBatch(p)
    requires h.nextId > 0 && h.nextId - 1 in h.accepted && 0 < written < |h.accepted[h.nextId - 1]|
    ensures var bytes := h.accepted[h.nextId - 1];
      Accounted(h.(wire := h.wire + bytes[..written]),
                Queues(q.chan, [HalfSent(h.nextId - 1, bytes, raw, written)], true), false, p)
  {
    var bytes := h.accepted[h.nextId - 1];
    NoneCutNoTorn(h.accepted, h.log);
    HalfSentOk(h.accepted, h.nextId - 1, bytes, raw, written);
    var m := HalfSent(h.nextId - 1, bytes, raw, written);
    MakeList(h.accepted, m, [], [m]);
    NothingPending(h.accepted, q.list);
  }

  // When SendNoDelay writes by itself, the send list is empty.
  lemma NothingQueuedBefore(c: Config, s: State)
    requires Safe(c) && OthersMayRun(c, s) && !Rejecting(s.life) && MayWriteNow(c, s)
    requires Close.Inv(s) && Order.Inv(s) && Order.Bounded(c, s)
    ensures s.q.list == [] && !s.life.closed && Pending(s.snd) == 0
    ensures !HasBatch(s.snd)
  {
  }

  lemma SendNoDelayStep(c: Config, s: State, bytes: Bytes, raw: bool, written: int)
    requires Safe(c) && OthersMayRun(c, s) && written <= |bytes|
    requires Inv(s) && Conservation.Fresh(s.h) && Close.Inv(s) && Order.Inv(s) && Order.Bounded(c, s)
    ensures Inv(StepSendNoDelay(c, s, bytes, raw, written))
  {
    SendStep(s, bytes);
    if bytes != [] && !Rejecting(s.life) && MayWriteNow(c, s) && written > 0 {
      NothingQueuedBefore(c, s);
      if written == |bytes| {
        WriteWholeStep(s, bytes, raw);
      } else {
        WritePartStep(s, bytes, raw, written);
      }
    }
  }

  lemma TimerStep(s: State, id: nat)
    requires Inv(s)
    ensures Inv(StepTimer(s, id))
  {
    TimerKeepsAll(s.h.accepted, s.q.chan, false, id);
    TimerKeepsList(s.h.accepted, s.q.list, id);
    TimerKeepsTail(s.h.accepted, s.q.list, Pending(s.snd), id);
    TimerKeepsCut(Torn(s.h.accepted, s.h.log), s.q.list, id);
    if s.snd.Woken? {
      TimerKeepsOne(s.h.accepted, s.snd.hand, id);
    } else {
      TimerKeepsPc(s.q.list, s.snd, id);
    }
  }

  lemma PushShutdownStep(s: State)
    requires Inv(s)
    ensures Inv(s.(q := PushShutdown(s.q)))
  {
    PushBack(s.h.accepted, s.q.chan, SHUTDOWN_MSG, false);
  }

  // ---------------------------------------------------------------- the sender's steps

  lemma GatherNothing(list: seq<Msg>, cap: nat)
    ensures PcOk(list, Gather(cap, 0, []))
  {
    assert list[..0] == [];
  }

  lemma ClassifyStep(c: Config, s: State, q: Queues, m: Msg, remain: nat, inserted: nat)
    requires Inv(s.(q := q, snd := Woken(m, remain, inserted))) && !s.life.closed
    ensures Inv(Classify(c, s, q, m, remain, inserted))
  {
    if m.shutdown {
      GatherNothing(q.list, Min(|q.list|, c.cMulti));
    } else if m.timeout {
      TakeTimedOut(s, q, m, remain, inserted);
    } else {
      TakeData(s, q, m, remain, inserted);
    }
  }

  lemma TakeTimedOut(s: State, q: Queues, m: Msg, remain: nat, inserted: nat)
    requires Inv(s.(q := q, snd := Woken(m, remain, inserted))) && !s.life.closed
    ensures Inv(s.(q := q, h := Done(s.h, m, TimedOut, 0), snd := Fetch(remain, inserted)))
  {
    DoneUntouched(s.h.accepted, s.h.log, m, TimedOut, false);
  }

  lemma TakeData(s: State, q: Queues, m: Msg, remain: nat, inserted: nat)
    requires Inv(s.(q := q, snd := Woken(m, remain, inserted))) && !s.life.closed && !m.shutdown
    ensures Inv(s.(q := q.(list := q.list + [m]), snd := Fetch(remain, inserted + 1)))
  {
    PushBackList(s.h.accepted, q.list, m);
    NoneCutNoTorn(s.h.accepted, s.h.log);
  }

  lemma FetchStep(c: Config, s: State, remain: nat, inserted: nat)
    requires Inv(s) && s.snd == Fetch(remain, inserted) && !s.life.closed
    ensures Inv(StepFetch(c, s, remain, inserted))
  {
    GatherNothing(s.q.list, Min(|s.q.list|, c.cMulti));
    if inserted < remain && s.q.chan != [] {
      ClassifyStep(c, s, s.q.(chan := s.q.chan[1..]), s.q.chan[0], remain, inserted);
    }
  }

  lemma ParkedStep(s: State, remain: nat, inserted: nat)
    requires Inv(s) && s.snd == Parked(remain, inserted)
    ensures Inv(StepParked(s, remain, inserted))
  {
  }

  lemma GatherStep(c: Config, s: State, cap: nat, k: nat, bytes: Bytes)
    requires Inv(s) && s.snd == Gather(cap, k, bytes) && !s.life.closed
    ensures Inv(StepGather(c, s, cap, k, bytes))
  {
    var list := s.q.list;
    if k < |list| && list[k].timeout && !list[k].sendHalf {
      EraseStep(s, cap, k, bytes);
    } else if k < |list| && k < c.cMulti {
      RestNext(list, k);
      Reposition(s, Gather(cap, k + 1, bytes + list[k].Rest()));
    } else {
      Reposition(s, if k == 0 then Top else Write(k, bytes));
    }
  }

  // A step that only moves on.
  lemma Reposition(s: State, p: SendPc)
    requires Inv(s) && Pending(s.snd) == Pending(p) == 0 && !p.Woken? && PcOk(s.q.list, p)
    ensures Inv(s.(snd := p))
  {
  }

  lemma EraseStep(s: State, cap: nat, k: nat, bytes: Bytes)
    requires Inv(s) && s.snd == Gather(cap, k, bytes) && !s.life.closed
    requires k < |s.q.list| && !s.q.list[k].sendHalf
    ensures Inv(s.(q := s.q.(list := s.q.list[..k] + s.q.list[k + 1..]), h := Done(s.h, s.q.list[k], TimedOut, 0)))
  {
    var a, log, list := s.h.accepted, s.h.log, s.q.list;
    EraseList(a, list, k);
    DoneUntouched(a, log, list[k], TimedOut, false);
    NoneCutNoTorn(a, log);
  }

  lemma WriteStep(s: State, k: nat, bytes: Bytes, io: Io)
    requires Inv(s) && s.snd == Write(k, bytes) && IoOk(s, io)
    ensures Inv(StepWrite(s, k, bytes, io))
  {
    if io.Wrote? {
      WriteWire(s.h.wire, s.h.accepted, s.h.log, s.q.list, k, io.n);
    }
  }

  lemma WriteWire(wire: Bytes, a: map<nat, Bytes>, log: seq<Entry>, list: seq<Msg>, k: nat, n: nat)
    requires WireOk(wire, a, log, list, 0) && k <= |list| && n <= |RestBytes(list[..k])|
    ensures WireOk(wire + RestBytes(list[..k])[..n], a, log, list, n) && n <= |RestBytes(list)|
  {
    WriteTail(a, list, k, n);
    Assoc(Base(a, log), Tail(a, list, 0), RestBytes(list[..k])[..n]);
  }

  lemma RetireStep(s: State, n: nat)
    requires Inv(s) && s.snd == Retire(n) && !s.life.closed
    ensures Inv(StepRetire(s, n))
  {
    if s.q.list != [] && n > 0 {
      if |s.q.list[0].Rest()| <= n {
        RetireWhole(s, n);
      } else {
        RetirePart(s, n);
      }
    }
  }

  lemma RetireWhole(s: State, n: nat)
    requires Inv(s) && s.snd == Retire(n) && !s.life.closed && s.q.list != []
    requires |s.q.list[0].Rest()| <= n
    ensures Inv(RetireHead(s, n))
  {
    var left := |s.q.list[0].Rest()|;
    RetireAccounted(s.h, s.q, n, DoneLog(s.h.accepted, s.h.log, s.q.list[0], Sent, left), s.q.list[1..]);
  }

  lemma RetireAccounted(h: History, q: Queues, n: nat, log: seq<Entry>, list: seq<Msg>)
    requires Accounted(h, q, false, Retire(n)) && q.list != [] && |q.list[0].Rest()| <= n
    requires log == DoneLog(h.accepted, h.log, q.list[0], Sent, |q.list[0].Rest()|) && list == q.list[1..]
    ensures Accounted(h.(log := log), q.(list := list), false, Retire(n - |q.list[0].Rest()|))
  {
    RetireWire(h.wire, h.accepted, h.log, q.list, n, log, list);
    Assemble(h, q, log, list, Retire(n - |q.list[0].Rest()|));
  }

  lemma Assemble(h: History, q: Queues, log: seq<Entry>, list: seq<Msg>, p: SendPc)
    requires AllUntouched(h.accepted, q.chan, false) && ListOk(h.accepted, list)
    requires CompletedOk(h.accepted, log, false) && Torn(h.accepted, log) == [] && PcOk(list, p)
    requires WireOk(h.wire, h.accepted, log, list, Pending(p))
    ensures Accounted(h.(log := log), q.(list := list), false, p)
  {
  }

  lemma RetireWire(wire: Bytes, a: map<nat, Bytes>, log: seq<Entry>, list: seq<Msg>, n: nat,
                   log': seq<Entry>, list': seq<Msg>)
    requires CompletedOk(a, log, false) && ListOk(a, list) && list != []
    requires |list[0].Rest()| <= n <= |RestBytes(list)| && WireOk(wire, a, log, list, n)
    requires log' == DoneLog(a, log, list[0], Sent, |list[0].Rest()|) && list' == list[1..]
    ensures n - |list[0].Rest()| <= |RestBytes(list')| && WireOk(wire, a, log', list', n - |list[0].Rest()|)
    ensures CompletedOk(a, log', false) && Torn(a, log') == [] && ListOk(a, list')
  {
    ListTail(a, list);
    DoneSent(a, log, list[0]);
    RetireTail(a, list, n);
    Assoc(Base(a, log), a[list[0].id], Tail(a, list', n - |list[0].Rest()|));
  }

  lemma RetirePart(s: State, n: nat)
    requires Inv(s) && s.snd == Retire(n) && !s.life.closed && s.q.list != []
    requires 0 < n < |s.q.list[0].Rest()|
    ensures Inv(AdvanceHead(s, n))
  {
    NoneCutNoTorn(s.h.accepted, s.h.log);
    AdvanceTail(s.h.accepted, s.q.list, n);
    AdvanceList(s.h.accepted, s.q.list, n);
  }

  // ---------------------------------------------------------------- OnClose

  lemma DrainListStep(a: map<nat, Bytes>, log: seq<Entry>, list: seq<Msg>)
    requires CompletedOk(a, log, true) && ListOk(a, list) && OneCut(Torn(a, log), list) && list != []
    ensures var t := DoneLog(a, log, list[0], ShutDown, 0);
      && CompletedOk(a, t, true) && ListOk(a, list[1..]) && OneCut(Torn(a, t), list[1..])
      && Base(a, t) + Tail(a, list[1..], 0) == Base(a, log) + Tail(a, list, 0)
  {
    DropHead(a, list);
    ListTail(a, list);
    if list[0].sendHalf {
      DoneHalf(a, log, list[0]);
    } else {
      DoneUntouched(a, log, list[0], ShutDown, true);
    }
  }

  lemma DrainChanStep(a: map<nat, Bytes>, log: seq<Entry>, chan: seq<Msg>)
    requires CompletedOk(a, log, true) && AllUntouched(a, chan, false) && chan != []
    ensures var t := DoneLog(a, log, chan[0], ShutDown, 0);
      && CompletedOk(a, t, true) && AllUntouched(a, chan[1..], false)
      && Base(a, t) == Base(a, log) && Torn(a, t) == Torn(a, log)
  {
    DoneUntouched(a, log, chan[0], ShutDown, true);
  }

  lemma CloseStep(s: State, at: ClosePc, snd: SendPc, rcv: RecvPc)
    requires Inv(s) && (s.life.closed || at.TryClose?) && Pending(s.snd) == 0 && Pending(snd) == 0
    requires HandOk(s.h.accepted, snd) && PcOk(CloseQueues(s.q, at).list, snd)
    ensures Inv(StepClose(s, at, snd, rcv))
  {
    match at
    case DrainChan => CloseChan(s, snd, rcv);
    case DrainList => CloseList(s, snd, rcv);
    case _ =>
  }

  lemma CloseChan(s: State, snd: SendPc, rcv: RecvPc)
    requires Inv(s) && s.life.closed && Pending(s.snd) == 0 && Pending(snd) == 0
    requires HandOk(s.h.accepted, snd) && PcOk(s.q.list, snd)
    ensures Inv(StepClose(s, DrainChan, snd, rcv))
  {
    if s.q.chan != [] {
      DrainChanStep(s.h.accepted, s.h.log, s.q.chan);
    }
  }

  lemma CloseList(s: State, snd: SendPc, rcv: RecvPc)
    requires Inv(s) && s.life.closed && Pending(s.snd) == 0 && Pending(snd) == 0
    requires HandOk(s.h.accepted, snd) && PcOk(CloseQueues(s.q, DrainList).list, snd)
    ensures Inv(StepClose(s, DrainList, snd, rcv))
  {
    if s.q.list != [] {
      DrainListStep(s.h.accepted, s.h.log, s.q.list);
    }
  }

  // ---------------------------------------------------------------- every step

  // Filling the send list and gathering buffers from it.
  predicate Collects(p: SendPc) { p.Fetch? || p.Woken? || p.Parked? || p.Gather? }

  lemma CollectStep(c: Config, s: State, io: Io)
    requires Inv(s) && !s.life.closed && Collects(s.snd)
    ensures Inv(StepSender(c, s, io))
  {
    match s.snd
    case Fetch(remain, inserted) => FetchStep(c, s, remain, inserted);
    case Woken(m, remain, inserted) => ClassifyStep(c, s, s.q, m, remain, inserted);
    case Parked(remain, inserted) => ParkedStep(s, remain, inserted);
    case Gather(cap, k, bytes) => GatherStep(c, s, cap, k, bytes);
  }

  // The session is closed by nobody while the sender is at work, and by whoever is in OnClose.
  lemma WhenClosed(s: State)
    requires Close.Inv(s)
    ensures !Close.SenderGone(s.snd) ==> !s.life.closed
    ensures s.snd.Closing? && !s.snd.at.TryClose? ==> s.life.closed
    ensures s.rcv.RClosing? ==> Close.SenderGone(s.snd) && (s.rcv.at.TryClose? || s.life.closed)
  {
  }

  lemma SenderStep(c: Config, s: State, io: Io)
    requires Inv(s) && Close.Inv(s) && IoOk(s, io)
    ensures Inv(StepSender(c, s, io))
  {
    WhenClosed(s);
    if Collects(s.snd) {
      CollectStep(c, s, io);
    } else {
      FlushStep(c, s, io);
    }
  }

  lemma FlushStep(c: Config, s: State, io: Io)
    requires Inv(s) && IoOk(s, io) && !Collects(s.snd)
    requires (s.snd.Retire? ==> !s.life.closed) && (s.snd.Closing? ==> s.snd.at.TryClose? || s.life.closed)
    ensures Inv(StepSender(c, s, io))
  {
    match s.snd
    case Write(k, bytes) => WriteStep(s, k, bytes, io);
    case Retire(n) => RetireStep(s, n);
    case Closing(at) => CloseStep(s, at, SenderAt(NextClose(s, at)), s.rcv);
    case _ => MoveStep(c, s, io);
  }

  lemma MoveStep(c: Config, s: State, io: Io)
    requires Inv(s)
    requires s.snd.Unstarted? || s.snd.Ready? || s.snd.Top? || s.snd.Poll? || s.snd.StopFlag? || s.snd.StopTest?
             || s.snd.Ended?
    ensures Inv(StepSender(c, s, io))
  {
    if s.snd.Poll? {
      PollStep(s, s.snd.k, s.snd.bytes, io);
    } else {
      var t := StepSender(c, s, io);
      Reposition(s, t.snd);
    }
  }

  lemma PollStep(s: State, k: nat, bytes: Bytes, io: Io)
    requires Inv(s) && s.snd == Poll(k, bytes)
    ensures Inv(StepPoll(s, k, bytes, io))
  {
    var t := StepPoll(s, k, bytes, io);
    Reposition(s, t.snd);
  }

  lemma ReceiverStep(s: State, io: Io)
    requires Inv(s) && Close.Inv(s)
    ensures Inv(StepReceiver(s, io))
  {
    WhenClosed(s);
    ReceiveStep(s, io);
  }

  lemma ReceiveStep(s: State, io: Io)
    requires Inv(s)
    requires s.rcv.RClosing? ==> Close.SenderGone(s.snd) && (s.rcv.at.TryClose? || s.life.closed)
    ensures Inv(StepReceiver(s, io))
  {
    match s.rcv
    case RPush => PushShutdownStep(s);
    case RClosing(at) => CloseStep(s, at, s.snd, ReceiverAt(NextClose(s, at)));
    case _ => ReceiverMoves(s, io);
  }

  lemma ReceiverMoves(s: State, io: Io)
    requires Inv(s) && !s.rcv.RPush? && !s.rcv.RClosing?
    ensures Inv(StepReceiver(s, io))
  {
    var t := StepReceiver(s, io);
    OnlyLifeMoves(s, io);
    LifeMoves(s, t.life, t.rcv);
  }

  lemma OnlyLifeMoves(s: State, io: Io)
    requires !s.rcv.RPush? && !s.rcv.RClosing?
    ensures var t := StepReceiver(s, io); t == s.(life := t.life, rcv := t.rcv) && t.life.closed == s.life.closed
  {
  }

  lemma LifeMoves(s: State, life: Life, rcv: RecvPc)
    requires Inv(s) && life.closed == s.life.closed
    ensures Inv(s.(life := life, rcv := rcv))
  {
  }

  lemma InvStep(c: Config, s: State, l: Label)
    requires Safe(c) && Enabled(c, s, l)
    requires Inv(s) && Conservation.Fresh(s.h) && Close.Inv(s) && Order.Inv(s) && Order.Bounded(c, s)
    ensures Inv(Step(c, s, l))
  {
    match l
    case ApiSend(bytes) => SendStep(s, bytes);
    case ApiSendNoDelay(bytes, raw, written) => SendNoDelayStep(c, s, bytes, raw, written);
    case ApiShutdown => PushShutdownStep(s);
    case Timer(id) => TimerStep(s, id);
    case Start =>
    case Sender(io) => SenderStep(c, s, io);
    case Receiver(io) => ReceiverStep(s, io);
  }
}
