/**
 A message whose timer has fired before any of it was written, or gathered to be written, is never sent: no byte
 of it gets on the wire, whatever happens later.
 */
module TooLate {
  import opened Wrappers
  import opened SendMachine
  import opened SessionRuns
  import opened SessionTheorems
  import opened Conservation
  import Close = CloseProtocol
  import Order = ShutdownOrder
  import Wire = WireSafety

  // Where a message waits.
  datatype Place = InChan(i: nat) | InHand | InList(i: nat)

  predicate Late(m: Msg, id: nat) { !m.shutdown && m.id == id && m.timeout }

  // Message i of the list is not among those gathered or written.
  predicate Untaken(list: seq<Msg>, p: SendPc, i: nat)
    requires i <= |list|
  {
    match p
    case Gather(_, k, _) => k <= i
    case Write(k, _) => k <= i
    case Poll(k, _) => k <= i
    case Retire(n) => n <= |Wire.RestBytes(list[..i])|
    case _ => true
  }

  // Message `id` waits at p, its timer has fired, and none of it has been taken up.
  predicate At(s: State, id: nat, p: Place) {
    match p
    case InChan(i) => i < |s.q.chan| && Late(s.q.chan[i], id)
    case InHand => s.snd.Woken? && Late(s.snd.hand, id)
    case InList(i) =>
      i < |s.q.list| && Late(s.q.list[i], id) && !s.q.list[i].sendHalf && Untaken(s.q.list, s.snd, i)
  }

  // The step completes message `id` without success, with none of it on the wire.
  predicate Drops(log: seq<Entry>, log': seq<Entry>, id: nat) {
    && |log'| == |log| + 1 && log' == log + [log'[|log|]]
    && log'[|log|].id == id && log'[|log|].count == 0 && !log'[|log|].verdict.Sent?
  }

  // The message waits somewhere, or has been given up by this step.
  predicate Remains(s: State, t: State, id: nat, p: Option<Place>) {
    match p
    case Some(place) => At(t, id, place)
    case None => Drops(s.h.log, t.h.log, id)
  }

  // ---------------------------------------------------------------- steps

  lemma CountIsZero(a: map<nat, Bytes>, m: Msg)
    requires Wire.DataOk(a, m) && !m.sendHalf
    ensures CountOf(a, m) == 0
  {
    Wire.DataFacts(a, m);
  }

  // All that is needed of the accounting of the wire.
  predicate QueuesOk(s: State) {
    && Wire.AllUntouched(s.h.accepted, s.q.chan, false) && Wire.ListOk(s.h.accepted, s.q.list)
    && Wire.HandOk(s.h.accepted, s.snd)
  }

  lemma QueuesAreOk(s: State)
    requires Wire.Inv(s)
    ensures QueuesOk(s)
  {
  }

  lemma GiveUp(s: State, m: Msg, v: Verdict, id: nat)
    requires Wire.DataOk(s.h.accepted, m) && !m.sendHalf && m.id == id && !v.Sent?
    ensures Drops(s.h.log, Done(s.h, m, v, 0).log, id)
  {
    CountIsZero(s.h.accepted, m);
  }

  // SendNoDelay puts a message in front of the list only when the list is empty.
  lemma CallStep(c: Config, s: State, l: Label, id: nat, p: Place)
    requires Wire.Safe(c) && Close.Inv(s) && Order.Inv(s) && Order.Bounded(c, s)
    requires At(s, id, p) && Enabled(c, s, l) && (l.ApiSend? || l.ApiSendNoDelay? || l.ApiShutdown? || l.Start?)
    ensures At(Step(c, s, l), id, p)
  {
  }

  lemma TimerStep(s: State, fired: nat, id: nat, p: Place)
    requires At(s, id, p)
    ensures At(StepTimer(s, fired), id, p)
  {
    if p.InList? {
      assert SetTimeout(s.q.list, fired)[..p.i] == SetTimeout(s.q.list[..p.i], fired);
      Wire.RestTimeout(s.q.list[..p.i], fired);
    }
  }

  lemma CloseStep(s: State, at: ClosePc, snd: SendPc, rcv: RecvPc, id: nat, p: Place) returns (p': Option<Place>)
    requires QueuesOk(s) && At(s, id, p) && Close.SenderGone(s.snd) && Close.SenderGone(snd)
    ensures Remains(s, StepClose(s, at, snd, rcv), id, p')
  {
    if at.DrainChan? && s.q.chan != [] && p.InChan? {
      GiveUpFirst(s, s.q.chan, false, id, p.i);
      p' := if p.i == 0 then None else Some(InChan(p.i - 1));
    } else if at.DrainList? && s.q.list != [] && p.InList? {
      GiveUpHead(s, id, p.i);
      p' := if p.i == 0 then None else Some(InList(p.i - 1));
    } else {
      CloseElsewhere(s, at, snd, rcv, id, p);
      p' := Some(p);
    }
  }

  lemma CloseElsewhere(s: State, at: ClosePc, snd: SendPc, rcv: RecvPc, id: nat, p: Place)
    requires At(s, id, p) && Close.SenderGone(s.snd) && Close.SenderGone(snd)
    requires !(at.DrainChan? && s.q.chan != [] && p.InChan?) && !(at.DrainList? && s.q.list != [] && p.InList?)
    ensures At(StepClose(s, at, snd, rcv), id, p)
  {
  }

  lemma GiveUpFirst(s: State, ms: seq<Msg>, data: bool, id: nat, i: nat)
    requires Wire.AllUntouched(s.h.accepted, ms, data) && i < |ms| && Late(ms[i], id)
    ensures i == 0 ==> Drops(s.h.log, Done(s.h, ms[0], ShutDown, 0).log, id)
    ensures i > 0 ==> Late(ms[1..][i - 1], id)
  {
    if i == 0 {
      GiveUp(s, ms[0], ShutDown, id);
    }
  }

  lemma GiveUpHead(s: State, id: nat, i: nat)
    requires Wire.ListOk(s.h.accepted, s.q.list) && i < |s.q.list| && Late(s.q.list[i], id) && !s.q.list[i].sendHalf
    ensures i == 0 ==> Drops(s.h.log, Done(s.h, s.q.list[0], ShutDown, 0).log, id)
  {
    if i == 0 {
      GiveUp(s, s.q.list[0], ShutDown, id);
    }
  }

  lemma FetchStep(c: Config, s: State, remain: nat, inserted: nat, id: nat, p: Place) returns (p': Option<Place>)
    requires QueuesOk(s) && At(s, id, p) && s.snd == Fetch(remain, inserted)
    ensures Remains(s, StepFetch(c, s, remain, inserted), id, p')
  {
    p' := Some(p);
    if inserted < remain && s.q.chan != [] && p.InChan? {
      if p.i == 0 {
        GiveUp(s, s.q.chan[0], TimedOut, id);
        p' := None;
      } else {
        p' := Some(InChan(p.i - 1));
      }
    }
  }

  lemma WokenStep(c: Config, s: State, m: Msg, remain: nat, inserted: nat, id: nat, p: Place) returns (p': Option<Place>)
    requires QueuesOk(s) && At(s, id, p) && s.snd == Woken(m, remain, inserted)
    ensures Remains(s, Classify(c, s, s.q, m, remain, inserted), id, p')
  {
    p' := Some(p);
    if p.InHand? {
      GiveUp(s, m, TimedOut, id);
      p' := None;
    }
  }

  lemma ParkedStep(s: State, remain: nat, inserted: nat, id: nat, p: Place) returns (p': Place)
    requires At(s, id, p) && s.snd == Parked(remain, inserted)
    ensures At(StepParked(s, remain, inserted), id, p')
  {
    p' := p;
    if s.q.chan != [] && p.InChan? {
      p' := if p.i == 0 then InHand else InChan(p.i - 1);
    }
  }

  lemma GatherStep(c: Config, s: State, cap: nat, k: nat, bytes: Bytes, id: nat, p: Place) returns (p': Option<Place>)
    requires QueuesOk(s) && At(s, id, p) && s.snd == Gather(cap, k, bytes)
    ensures Remains(s, StepGather(c, s, cap, k, bytes), id, p')
  {
    p' := Some(p);
    if k < |s.q.list| && s.q.list[k].timeout && !s.q.list[k].sendHalf {
      p' := DropStep(s, k, id, p);
    }
  }

  lemma DropStep(s: State, k: nat, id: nat, p: Place) returns (p': Option<Place>)
    requires QueuesOk(s) && At(s, id, p) && s.snd.Gather? && s.snd.k == k < |s.q.list| && !s.q.list[k].sendHalf
    ensures var t := s.(q := s.q.(list := s.q.list[..k] + s.q.list[k + 1..]), h := Done(s.h, s.q.list[k], TimedOut, 0));
      Remains(s, t, id, p')
  {
    p' := Some(p);
    if p.InList? {
      if p.i == k {
        Wire.EraseList(s.h.accepted, s.q.list, k);
        GiveUp(s, s.q.list[k], TimedOut, id);
        p' := None;
      } else {
        p' := Some(InList(p.i - 1));
      }
    }
  }

  lemma WriteStep(s: State, k: nat, bytes: Bytes, io: Io, id: nat, p: Place)
    requires Wire.Inv(s) && At(s, id, p) && s.snd == Write(k, bytes) && IoOk(s, io)
    ensures At(StepWrite(s, k, bytes, io), id, p)
  {
    if p.InList? && io.Wrote? {
      var list := s.q.list;
      assert list[..p.i][..k] == list[..k];
      Wire.RestSplit(list[..p.i], k);
    }
  }

  lemma RetireStep(s: State, n: nat, id: nat, p: Place) returns (p': Place)
    requires At(s, id, p) && s.snd == Retire(n)
    ensures At(StepRetire(s, n), id, p')
  {
    p' := p;
    if p.InList? && n > 0 {
      var list := s.q.list;
      assert list[..0] == [];
      if |list[0].Rest()| <= n {
        p' := InList(p.i - 1);
        assert list[..p.i][0] == list[0] && list[..p.i][1..] == list[1..][..p.i - 1];
      }
    }
  }

  lemma SenderStep(c: Config, s: State, io: Io, id: nat, p: Place) returns (p': Option<Place>)
    requires Wire.Inv(s) && At(s, id, p) && IoOk(s, io)
    ensures Remains(s, StepSender(c, s, io), id, p')
  {
    p' := Some(p);
    QueuesAreOk(s);
    match s.snd
    case Fetch(remain, inserted) => p' := FetchStep(c, s, remain, inserted, id, p);
    case Woken(m, remain, inserted) => p' := WokenStep(c, s, m, remain, inserted, id, p);
    case Parked(remain, inserted) =>
      var q := ParkedStep(s, remain, inserted, id, p);
      p' := Some(q);
    case Gather(cap, k, bytes) => p' := GatherStep(c, s, cap, k, bytes, id, p);
    case Write(k, bytes) => WriteStep(s, k, bytes, io, id, p);
    case Retire(n) =>
      var q := RetireStep(s, n, id, p);
      p' := Some(q);
    case Closing(at) => p' := CloseStep(s, at, SenderAt(NextClose(s, at)), s.rcv, id, p);
    case _ => MoveStep(c, s, io, id, p);
  }

  lemma MoveStep(c: Config, s: State, io: Io, id: nat, p: Place)
    requires At(s, id, p)
    requires s.snd.Unstarted? || s.snd.Ready? || s.snd.Top? || s.snd.Poll? || s.snd.StopFlag? || s.snd.StopTest?
             || s.snd.Ended?
    ensures At(StepSender(c, s, io), id, p)
  {
    var t := StepSender(c, s, io);
    assert t.q == s.q;
  }

  lemma ReceiverStep(s: State, io: Io, id: nat, p: Place) returns (p': Option<Place>)
    requires Wire.Inv(s) && Close.Inv(s) && At(s, id, p)
    ensures Remains(s, StepReceiver(s, io), id, p')
  {
    p' := Some(p);
    QueuesAreOk(s);
    if s.rcv.RClosing? {
      p' := CloseStep(s, s.rcv.at, s.snd, ReceiverAt(NextClose(s, s.rcv.at)), id, p);
    } else {
      ReceiverElsewhere(s, io, id, p);
    }
  }

  lemma ReceiverElsewhere(s: State, io: Io, id: nat, p: Place)
    requires At(s, id, p) && !s.rcv.RClosing?
    ensures At(StepReceiver(s, io), id, p)
  {
    var t := StepReceiver(s, io);
    assert t.snd == s.snd && t.q.list == s.q.list && s.q.chan <= t.q.chan;
  }

  lemma AnyStep(c: Config, s: State, l: Label, id: nat, p: Place) returns (p': Option<Place>)
    requires Wire.Safe(c) && Wire.Inv(s) && Close.Inv(s) && Order.Inv(s) && Order.Bounded(c, s)
    requires At(s, id, p) && Enabled(c, s, l)
    ensures Remains(s, Step(c, s, l), id, p')
  {
    match l
    case Sender(io) => p' := SenderStep(c, s, io, id, p);
    case Receiver(io) => p' := ReceiverStep(s, io, id, p);
    case Timer(fired) =>
      TimerStep(s, fired, id, p);
      p' := Some(p);
    case _ =>
      CallStep(c, s, l, id, p);
      p' := Some(p);
  }

  // ---------------------------------------------------------------- runs

  lemma LogStep(c: Config, s: State, l: Label)
    ensures var log, log' := s.h.log, Step(c, s, l).h.log;
      log' == log || (|log'| == |log| + 1 && log' == log + [log'[|log|]])
  {
    match l
    case Sender(io) =>
      if !s.snd.Closing? {
        SenderLog(c, s, io);
      }
    case _ =>
  }

  // All completions of the message, if there are any, are without success, with none of it on the wire.
  predicate NoneSent(log: seq<Entry>, id: nat) {
    log == [] ||
    var e := log[|log| - 1];
    NoneSent(log[..|log| - 1], id) && (e.id == id ==> e.count == 0 && !e.verdict.Sent?)
  }

  lemma NoneSentOne(log: seq<Entry>, e: Entry, id: nat)
    ensures NoneSent(log + [e], id) <==> NoneSent(log, id) && (e.id == id ==> e.count == 0 && !e.verdict.Sent?)
    ensures LogOcc(log + [e], id) == LogOcc(log, id) + if e.id == id then 1 else 0
  {
    assert (log + [e])[..|log|] == log;
  }

  lemma {:induction false} NoneLogged(log: seq<Entry>, id: nat)
    requires LogOcc(log, id) == 0
    ensures NoneSent(log, id)
  {
    if log != [] {
      NoneLogged(log[..|log| - 1], id);
    }
  }

  lemma {:induction false} OccIn(ms: seq<Msg>, i: nat, id: nat)
    requires i < |ms| && One(ms[i], id) == 1
    ensures Occ(ms, id) >= 1
  {
    if i > 0 {
      OccIn(ms[1..], i - 1, id);
    }
  }

  // A waiting message has not been completed.
  lemma WaitingIsNotLogged(s: State, id: nat, p: Place)
    requires Conservation.Inv(s) && At(s, id, p)
    ensures LogOcc(s.h.log, id) == 0 && id in s.h.accepted
  {
    assert Places(s.q, s.snd, s.h.log, id) == Accepted(s.h, id);
    match p
    case InChan(i) => OccIn(s.q.chan, i, id);
    case InHand =>
    case InList(i) => OccIn(s.q.list, i, id);
  }

  // It waits, or it has been given up.
  ghost predicate Dropped(s: State, id: nat) {
    (exists p :: At(s, id, p)) || (LogOcc(s.h.log, id) == 1 && NoneSent(s.h.log, id))
  }

  lemma DroppedStep(c: Config, s: State, l: Label, id: nat)
    requires c.Valid() && Wire.Safe(c) && Good(c, s) && Wire.Inv(s) && Enabled(c, s, l) && Dropped(s, id)
    requires Conservation.Inv(Step(c, s, l))
    ensures Dropped(Step(c, s, l), id)
  {
    if p :| At(s, id, p) {
      WaitingIsNotLogged(s, id, p);
      var p' := AnyStep(c, s, l, id, p);
      RemainsDropped(s, Step(c, s, l), id, p');
    } else {
      DropStays(c, s, l, id);
    }
  }

  lemma RemainsDropped(s: State, t: State, id: nat, p: Option<Place>)
    requires LogOcc(s.h.log, id) == 0 && Remains(s, t, id, p)
    ensures Dropped(t, id)
  {
    if p.None? {
      NoneLogged(s.h.log, id);
      NoneSentOne(s.h.log, t.h.log[|s.h.log|], id);
    } else {
      assert At(t, id, p.value);
    }
  }

  lemma DropStays(c: Config, s: State, l: Label, id: nat)
    requires LogOcc(s.h.log, id) == 1 && NoneSent(s.h.log, id) && Conservation.Inv(Step(c, s, l))
    ensures var t := Step(c, s, l); LogOcc(t.h.log, id) == 1 && NoneSent(t.h.log, id)
  {
    var t := Step(c, s, l);
    LogStep(c, s, l);
    assert Places(t.q, t.snd, t.h.log, id) == Accepted(t.h, id);
    if t.h.log != s.h.log {
      NoneSentOne(s.h.log, t.h.log[|s.h.log|], id);
    }
  }

  lemma {:induction false} StaysDropped(c: Config, ls: seq<Label>, s: State, id: nat, ms: seq<Label>, t: State)
    requires c.Valid() && Wire.Safe(c) && Reaches(c, ls, s) && Dropped(s, id) && Reaches(c, ls + ms, t)
    ensures Dropped(t, id)
  {
    if ms == [] {
      assert ls + ms == ls;
    } else {
      PrefixReaches(c, ls, ms);
      var rest := ls + ms[..|ms| - 1];
      var before := Exec(c, rest).value;
      StaysDropped(c, ls, s, id, ms[..|ms| - 1], before);
      GoodReachable(c, rest, before);
      WireReachable(c, rest, before);
      GoodReachable(c, ls + ms, t);
      DroppedStep(c, before, ms[|ms| - 1], id);
    }
  }

  // Once the timer of a message has fired before any of it was taken up, the message is in no continuation of
  // the run completed with success, or with any of it on the wire.
  lemma NeverSent(c: Config, ls: seq<Label>, s: State, id: nat, p: Place, ms: seq<Label>, t: State)
    requires c.Valid() && Wire.Safe(c) && Reaches(c, ls, s) && At(s, id, p) && Reaches(c, ls + ms, t)
    ensures forall e :: e in t.h.log && e.id == id ==> e.count == 0 && !e.verdict.Sent?
  {
    StaysDropped(c, ls, s, id, ms, t);
    if q :| At(t, id, q) {
      GoodReachable(c, ls + ms, t);
      WaitingIsNotLogged(t, id, q);
      NoneLogged(t.h.log, id);
    }
    forall e | e in t.h.log && e.id == id ensures e.count == 0 && !e.verdict.Sent? {
      NoneSentIn(t.h.log, e);
    }
  }

  lemma {:induction false} NoneSentIn(log: seq<Entry>, e: Entry)
    requires e in log && NoneSent(log, e.id)
    ensures e.count == 0 && !e.verdict.Sent?
  {
    if log[|log| - 1] != e {
      NoneSentIn(log[..|log| - 1], e);
    }
  }
}
