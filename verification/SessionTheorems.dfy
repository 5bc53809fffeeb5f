/**
 The main results about a session, for every run of its actors.
 */
module SessionTheorems {
  import opened Wrappers
  import opened SendMachine
  import opened Conservation
  import Close = CloseProtocol
  import Order = ShutdownOrder
  import Wire = WireSafety
  import Fifo
  import Trace
  import opened SessionRuns

  // ---------------------------------------------------------------- no tearing

  // The written part of the one message that is cut in two.
  function Cut(s: State): Bytes {
    Wire.Torn(s.h.accepted, s.h.log) + Wire.HeadSent(s.h.accepted, s.q.list)
  }

  // ... namely of the half-sent head of the list,
  predicate CutsHead(s: State, cut: Bytes) {
    && s.q.list != [] && s.q.list[0].sendHalf && s.q.list[0].id in s.h.accepted
    && cut < s.h.accepted[s.q.list[0].id]
  }

  // ... or of a message the close has given up.
  predicate CutsGivenUp(s: State, cut: Bytes, e: Entry) {
    e.verdict.ShutDown? && e.id in s.h.accepted && cut < s.h.accepted[e.id] && |cut| == e.count
  }

  // The wire: all messages completed with success, in completion order; then a proper prefix of one
  // other message; and, while the sender is still going through its list after a write, the n bytes
  // of that write it has not got to.
  ghost predicate Untorn(s: State) {
    && s.h.wire == Wire.SentBytes(s.h.accepted, s.h.log) + Cut(s)
                   + Wire.Prefix(Wire.RestBytes(s.q.list), Wire.Pending(s.snd))
    && (Cut(s) == [] || CutsHead(s, Cut(s)) || exists e :: e in s.h.log && CutsGivenUp(s, Cut(s), e))
  }

  // Nothing is torn in any run, exactly when nobody can write between two rounds of the sender.
  lemma NoTearingExactly(c: Config)
    requires c.Valid()
    ensures Wire.Safe(c) <==> forall ls: seq<Label>, s: State :: Reaches(c, ls, s) ==> Untorn(s)
  {
    if Wire.Safe(c) {
      forall ls: seq<Label>, s: State | Reaches(c, ls, s) ensures Untorn(s) {
        NothingTorn(c, ls, s);
      }
    } else {
      var ls, s := TearingRun(c);
    }
  }

  lemma NothingTorn(c: Config, ls: seq<Label>, s: State)
    requires c.Valid() && Wire.Safe(c) && Reaches(c, ls, s)
    ensures Untorn(s)
  {
    WireReachable(c, ls, s);
    var a := s.h.accepted;
    var sent, torn, head := Wire.SentBytes(a, s.h.log), Wire.Torn(a, s.h.log), Wire.HeadSent(a, s.q.list);
    Associate(sent, torn, head, Wire.Prefix(Wire.RestBytes(s.q.list), Wire.Pending(s.snd)));
    if s.q.list != [] {
      Wire.DataFacts(a, s.q.list[0]);
    }
    if torn != [] {
      assert Cut(s) == torn;
      var e := TornEntry(a, s.h.log);
      assert CutsGivenUp(s, Cut(s), e);
    } else if head != [] {
      assert Cut(s) == head;
      assert CutsHead(s, head);
    }
  }

  lemma Associate(x: Bytes, y: Bytes, z: Bytes, w: Bytes)
    ensures (x + y) + (z + w) == x + (y + z) + w
  {
  }

  lemma {:induction false} TornEntry(a: map<nat, Bytes>, log: seq<Entry>) returns (e: Entry)
    requires Wire.LogOk(a, log) && Wire.Torn(a, log) != []
    ensures e in log && e.verdict.ShutDown? && e.id in a
    ensures Wire.Torn(a, log) < a[e.id] && |Wire.Torn(a, log)| == e.count
  {
    var last := log[|log| - 1];
    if last.verdict.ShutDown? && last.count != 0 {
      e := last;
    } else {
      e := TornEntry(a, log[..|log| - 1]);
    }
  }

  // ---------------------------------------------------------------- and how it happens otherwise

  lemma Extend(c: Config, ls: seq<Label>, s: State, l: Label) returns (ls': seq<Label>, t: State)
    requires Reaches(c, ls, s) && Enabled(c, s, l)
    ensures ls' == ls + [l] && t == Step(c, s, l) && Reaches(c, ls', t)
  {
    ls', t := ls + [l], Step(c, s, l);
    assert ls'[..|ls' | - 1] == ls;
  }

  // The sender writes the first byte of "ab" and goes round its loop; before it has retaken the
  // lock, SendNoDelay finds the lock free and `sending_` false, and writes "X" on its own.
  lemma TearingRun(c: Config) returns (ls: seq<Label>, s: State)
    requires c.Valid() && !Wire.Safe(c)
    ensures Reaches(c, ls, s) && s.h.wire == "aX" && !Untorn(s)
  {
    ls, s := RunToFetched(c);
    ls, s := RunToHalfWritten(c, ls, s);
    ls, s := Extend(c, ls, s, ApiSendNoDelay("X", false, 1));
    assert s.h.wire == "aX";
    assert s.h.log == [Entry(1, Sent, 1)];
    assert Wire.SentBytes(s.h.accepted, s.h.log) == "X" by {
      assert s.h.log[..0] == [];
    }
    assert "aX"[0] == 'a';
  }

  ghost predicate Fetched(c: Config, s: State) {
    && s.q == Queues([], [Msg(0, "ab", 0, false, false, false)], false)
    && s.life == Life(false, false, false, false, 0, [Connected])
    && s.snd == Fetch(c.cMulti, 1) && !s.msgShutdown && s.rcv == Reading
    && s.h == History(1, map[0 := "ab"], {0}, [], [])
  }

  lemma RunToFetching(c: Config) returns (ls: seq<Label>, s: State)
    requires c.Valid() && !Wire.Safe(c)
    ensures Reaches(c, ls, s) && s.snd == Fetch(c.cMulti, 0) && !s.msgShutdown && s.rcv == Reading
    ensures s.q == Queues([Msg(0, "ab", 0, false, false, false)], [], false)
    ensures s.life == Life(false, false, false, false, 0, [Connected])
    ensures s.h == History(1, map[0 := "ab"], {0}, [], [])
  {
    ls, s := [], INIT;
    ls, s := Extend(c, ls, s, Start);
    ls, s := Extend(c, ls, s, ApiSend("ab"));
    ls, s := Extend(c, ls, s, Sender(Data));
    ls, s := Extend(c, ls, s, Sender(Data));
  }

  lemma RunToFetched(c: Config) returns (ls: seq<Label>, s: State)
    requires c.Valid() && !Wire.Safe(c)
    ensures Reaches(c, ls, s) && Fetched(c, s)
  {
    ls, s := RunToFetching(c);
    ls, s := Extend(c, ls, s, Sender(Data));
    assert s.q.list == [Msg(0, "ab", 0, false, false, false)] && s.q.chan == [];
  }

  ghost predicate HalfWritten(s: State) {
    && s.q == Queues([], [Msg(0, "ab", 1, true, false, false)], false)
    && s.life == Life(false, false, false, false, 0, [Connected])
    && s.snd == Top
    && s.h == History(1, map[0 := "ab"], {0}, "a", [])
  }

  lemma RunToHalfWritten(c: Config, before: seq<Label>, start: State) returns (ls: seq<Label>, s: State)
    requires c.Valid() && Reaches(c, before, start) && Fetched(c, start)
    ensures Reaches(c, ls, s) && HalfWritten(s)
  {
    ls, s := Extend(c, before, start, Sender(Data));
    assert s.snd == Gather(1, 0, []);
    ls, s := Extend(c, ls, s, Sender(Data));
    assert s.snd == Gather(1, 1, "ab");
    ls, s := Extend(c, ls, s, Sender(Data));
    assert s.snd == Write(1, "ab");
    ls, s := Extend(c, ls, s, Sender(Wrote(1)));
    assert s.snd == Retire(1) && s.h.wire == "a";
    ls, s := Extend(c, ls, s, Sender(Data));
  }

  // ---------------------------------------------------------------- verdicts

  // A message is reported as sent exactly when all its bytes have been counted, as timed out only
  // when none has (see `EntryOk`).
  lemma VerdictsMatchCounts(c: Config, ls: seq<Label>, s: State)
    requires c.Valid() && Wire.Safe(c) && Reaches(c, ls, s)
    ensures forall e :: e in s.h.log ==> Wire.EntryOk(s.h.accepted, e)
  {
    WireReachable(c, ls, s);
    forall e | e in s.h.log ensures Wire.EntryOk(s.h.accepted, e) {
      EntryOkIn(s.h.accepted, s.h.log, e);
    }
  }

  // And the counts are true: the wire is made of the counted bytes of the completed messages, in
  // completion order, then of the head of the list and of what is still pending.
  lemma CountsMatchWire(c: Config, ls: seq<Label>, s: State)
    requires c.Valid() && Wire.Safe(c) && Reaches(c, ls, s)
    ensures s.h.wire == Wire.CountedBytes(s.h.accepted, s.h.log)
                        + (Wire.HeadSent(s.h.accepted, s.q.list)
                           + Wire.Prefix(Wire.RestBytes(s.q.list), Wire.Pending(s.snd)))
  {
    WireReachable(c, ls, s);
    assert Wire.CountedBytes(s.h.accepted, s.h.log) == Wire.Base(s.h.accepted, s.h.log);
  }

  lemma {:induction false} EntryOkIn(a: map<nat, Bytes>, log: seq<Entry>, e: Entry)
    requires Wire.LogOk(a, log) && e in log
    ensures Wire.EntryOk(a, e)
  {
    if log[|log| - 1] != e {
      EntryOkIn(a, log[..|log| - 1], e);
    }
  }

  // ---------------------------------------------------------------- exactly once

  // Every accepted message is in exactly one place, every other in none; in particular a message is
  // completed at most once.
  lemma ExactlyOnePlace(c: Config, ls: seq<Label>, s: State, id: nat)
    requires c.Valid() && Reaches(c, ls, s)
    ensures LogOcc(s.h.log, id) + Occ(s.q.list, id) + HandOcc(s.snd, id) + Occ(s.q.chan, id)
            == if id in s.h.accepted then 1 else 0
  {
    GoodReachable(c, ls, s);
    assert Places(s.q, s.snd, s.h.log, id) == Accepted(s.h, id);
  }

  // When the disconnect callback is called, every accepted message has been completed, once.
  lemma AllCompletedAtDisconnect(c: Config, ls: seq<Label>, s: State, id: nat)
    requires c.Valid() && Reaches(c, ls, s) && Close.IsDisconnected(s.life)
    ensures LogOcc(s.h.log, id) == if id in s.h.accepted then 1 else 0
  {
    GoodReachable(c, ls, s);
    assert Places(s.q, s.snd, s.h.log, id) == Accepted(s.h, id);
    OccOfShutdowns(s.q.chan, id);
  }

  // ---------------------------------------------------------------- what stays as it is

  // A run can be cut anywhere.
  lemma {:induction false} PrefixReaches(c: Config, ls: seq<Label>, ms: seq<Label>)
    requires Exec(c, ls + ms).Some?
    ensures Exec(c, ls).Some?
    ensures ms != [] ==> Exec(c, ls + ms[..|ms| - 1]).Some?
                         && Enabled(c, Exec(c, ls + ms[..|ms| - 1]).value, ms[|ms| - 1])
                         && Exec(c, ls + ms).value == Step(c, Exec(c, ls + ms[..|ms| - 1]).value, ms[|ms| - 1])
  {
    if ms == [] {
      assert ls + ms == ls;
    } else {
      assert (ls + ms)[..|ls + ms| - 1] == ls + ms[..|ms| - 1];
      PrefixReaches(c, ls, ms[..|ms| - 1]);
    }
  }

  // After the disconnect callback nothing happens any more: no byte is written, no message accepted
  // or completed, no callback of the session called.
  lemma {:induction false} FrozenAfterDisconnect(c: Config, ls: seq<Label>, s: State, ms: seq<Label>, t: State)
    requires c.Valid() && Reaches(c, ls, s) && Close.IsDisconnected(s.life) && Reaches(c, ls + ms, t)
    ensures t.h == s.h && t.life.events == s.life.events && t.life.closeEc == s.life.closeEc
  {
    if ms == [] {
      assert ls + ms == ls;
    } else {
      PrefixReaches(c, ls, ms);
      var before := Exec(c, ls + ms[..|ms| - 1]).value;
      FrozenAfterDisconnect(c, ls, s, ms[..|ms| - 1], before);
      GoodReachable(c, ls + ms[..|ms| - 1], before);
      FrozenStep(c, before, ms[|ms| - 1]);
    }
  }

  lemma FrozenStep(c: Config, s: State, l: Label)
    requires Close.Inv(s) && Close.IsDisconnected(s.life) && Enabled(c, s, l)
    ensures var t := Step(c, s, l);
      t.h == s.h && t.life.events == s.life.events && t.life.closeEc == s.life.closeEc
  {
  }

  // The first reason given to SetCloseEc stays, and with it IsEstab never becomes true again.
  lemma {:induction false} FirstReasonStays(c: Config, ls: seq<Label>, s: State, ms: seq<Label>, t: State)
    requires Reaches(c, ls, s) && s.life.closeEc != 0 && Reaches(c, ls + ms, t)
    ensures t.life.closeEc == s.life.closeEc
  {
    if ms == [] {
      assert ls + ms == ls;
    } else {
      PrefixReaches(c, ls, ms);
      var before := Exec(c, ls + ms[..|ms| - 1]).value;
      FirstReasonStays(c, ls, s, ms[..|ms| - 1], before);
      ReasonStep(c, before, ms[|ms| - 1]);
    }
  }

  lemma ReasonStep(c: Config, s: State, l: Label)
    requires s.life.closeEc != 0
    ensures Step(c, s, l).life.closeEc == s.life.closeEc
  {
    match l
    case Sender(io) =>
      if !Close.SenderGone(s.snd) && !s.snd.StopFlag? && !s.snd.Unstarted? {
        Close.WorkingSender(c, s, io);
      }
    case _ =>
  }

  // ---------------------------------------------------------------- one close

  function Disconnects(events: seq<Event>): nat {
    if events == [] then 0
    else Disconnects(events[..|events| - 1]) + if events[|events| - 1].Disconnected? then 1 else 0
  }

  // The session callbacks are called in the order connect, receive*, disconnect; there is at most one
  // disconnect, exactly one once both coroutines have ended, none before both halves are shut down;
  // its reason is the first that turned up in the run, and is not zero.
  lemma OneClose(c: Config, ls: seq<Label>, s: State)
    requires c.Valid() && Reaches(c, ls, s)
    ensures Close.Lifecycle(s.life.events) && Disconnects(s.life.events) <= 1
    ensures s.snd.Ended? && s.rcv.REnded? ==> Disconnects(s.life.events) == 1
    ensures s.life.closed ==> s.life.sendDown && s.life.recvDown
    ensures forall e :: e in s.life.events && e.Disconnected? ==> e.ec == Trace.FirstReason(c, ls) != 0
  {
    GoodReachable(c, ls, s);
    Trace.ReasonIsTheFirst(c, ls, s);
    CountDisconnects(s.life.events);
  }

  lemma {:induction false} CountDisconnects(events: seq<Event>)
    requires Close.Lifecycle(events)
    ensures Disconnects(events) == if events != [] && events[|events| - 1].Disconnected? then 1 else 0
  {
    if events != [] {
      var before := events[..|events| - 1];
      assert forall i :: 0 <= i < |before| ==> before[i] == events[i];
      CountDisconnects(before);
    }
  }

  // ---------------------------------------------------------------- graceful shutdown

  // Once the sender has taken a shutdown message, every accepted message is either completed or in
  // the send list, which holds at most one batch and the half-sent message; the close gives up no
  // more than these.
  lemma GracefulShutdown(c: Config, ls: seq<Label>, s: State, id: nat)
    requires c.Valid() && Reaches(c, ls, s) && s.msgShutdown
    ensures id in s.h.accepted ==> LogOcc(s.h.log, id) + Occ(s.q.list, id) == 1
    ensures GivenUp(s.h.log) + |s.q.list| <= c.cMulti + 1
  {
    GoodReachable(c, ls, s);
    assert Places(s.q, s.snd, s.h.log, id) == Accepted(s.h, id);
    OccOfShutdowns(s.q.chan, id);
  }

  // ---------------------------------------------------------------- batches

  // The send list is bounded, and no buffer is filled out of range, whatever is erased on the way.  A batch is
  // all of the list, or as much of it as one write can take.
  lemma BatchBound(c: Config, ls: seq<Label>, s: State)
    requires c.Valid() && Reaches(c, ls, s)
    ensures |s.q.list| <= c.cMulti + (if s.q.sending then 1 else 0)
    ensures s.snd.Gather? && s.snd.k < |s.q.list| && s.snd.k < c.cMulti ==> s.snd.k < s.snd.cap
    ensures s.snd.Write? ==> 0 < s.snd.k <= c.cMulti && (s.snd.k == |s.q.list| || s.snd.k == c.cMulti)
  {
    GoodReachable(c, ls, s);
  }

  // While goSend sleeps, `sending_` tells whether a half-sent message is in the list, so that SendNoDelay may
  // write if and only if there is none.
  lemma IdleWritesAtOnce(c: Config, ls: seq<Label>, s: State)
    requires c.Valid() && Reaches(c, ls, s) && s.snd.Parked? && !c.ssl
    ensures MayWriteNow(c, s) <==> s.q.list == []
  {
    GoodReachable(c, ls, s);
  }

  // goSend leaves its fetch loop for a batch only when nothing more is in the channel, or the list is full, or
  // it has taken a shutdown message.
  lemma FetchesAll(c: Config, ls: seq<Label>, s: State, l: Label, t: State)
    requires c.Valid() && Reaches(c, ls, s) && Reaches(c, ls + [l], t)
    requires (s.snd.Fetch? || s.snd.Woken?) && t.snd.Gather?
    ensures t.q.chan == [] || |t.q.list| >= c.cMulti || t.msgShutdown
  {
    GoodReachable(c, ls, s);
    assert (ls + [l])[..|ls|] == ls;
    if l.Sender? && s.snd.Fetch? {
      FetchLeaves(c, s, s.snd.remain, s.snd.inserted);
    }
  }

  lemma FetchLeaves(c: Config, s: State, remain: nat, inserted: nat)
    requires Order.Bounded(c, s) && s.snd == Fetch(remain, inserted)
    ensures var t := StepFetch(c, s, remain, inserted);
      t.snd.Gather? ==> t.q.chan == [] || |t.q.list| >= c.cMulti || t.msgShutdown
  {
  }

  // ---------------------------------------------------------------- order

  // Of two channelled messages the one accepted first is sent first; and whatever still waits was
  // accepted after everything that has been sent.
  lemma FirstInFirstOut(c: Config, ls: seq<Label>, s: State)
    requires c.Valid() && Reaches(c, ls, s)
    ensures forall i, j | 0 <= i < j < |s.h.log| && Channelled(s, s.h.log[i]) && Channelled(s, s.h.log[j]) ::
              s.h.log[i].id < s.h.log[j].id
    ensures forall i, m | 0 <= i < |s.h.log| && Channelled(s, s.h.log[i]) && m in Fifo.Waiting(s.q, s.snd)
                          && !m.shutdown && m.id in s.h.queued :: s.h.log[i].id < m.id
  {
    GoodReachable(c, ls, s);
    forall i, j | 0 <= i < j < |s.h.log| && Channelled(s, s.h.log[i]) && Channelled(s, s.h.log[j])
      ensures s.h.log[i].id < s.h.log[j].id
    {
      SentGrow(s.h.queued, s.h.log, s.h.nextId, i, j);
    }
    forall i, m | 0 <= i < |s.h.log| && Channelled(s, s.h.log[i]) && m in Fifo.Waiting(s.q, s.snd)
                  && !m.shutdown && m.id in s.h.queued
      ensures s.h.log[i].id < m.id
    {
      SentBelowLast(s.h.queued, s.h.log, s.h.nextId, i);
      WaitingAbove(s.h.queued, Fifo.Waiting(s.q, s.snd), Fifo.LastSent(s.h.queued, s.h.log), s.h.nextId, m);
    }
  }

  predicate Channelled(s: State, e: Entry) { e.verdict.Sent? && e.id in s.h.queued }

  lemma {:induction false} SentBelowLast(queued: set<nat>, log: seq<Entry>, hi: nat, i: nat)
    requires Fifo.SentAscending(queued, log, hi) && i < |log| && log[i].verdict.Sent? && log[i].id in queued
    ensures log[i].id <= Fifo.LastSent(queued, log)
  {
    if i < |log| - 1 {
      SentBelowLast(queued, log[..|log| - 1], hi, i);
    }
  }

  lemma {:induction false} SentGrow(queued: set<nat>, log: seq<Entry>, hi: nat, i: nat, j: nat)
    requires Fifo.SentAscending(queued, log, hi) && i < j < |log|
    requires log[i].verdict.Sent? && log[i].id in queued && log[j].verdict.Sent? && log[j].id in queued
    ensures log[i].id < log[j].id
  {
    if j == |log| - 1 {
      SentBelowLast(queued, log[..j], hi, i);
    } else {
      SentGrow(queued, log[..|log| - 1], hi, i, j);
    }
  }

  lemma {:induction false} WaitingAbove(queued: set<nat>, ms: seq<Msg>, lo: int, hi: nat, m: Msg)
    requires Fifo.Ascending(queued, ms, lo, hi) && m in ms && !m.shutdown && m.id in queued
    ensures lo < m.id
  {
    if ms[0] != m {
      var lo' := if !ms[0].shutdown && ms[0].id in queued then ms[0].id else lo;
      WaitingAbove(queued, ms[1..], lo', hi, m);
    }
  }
}
