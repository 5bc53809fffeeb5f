/**
 Draining: left alone, with every write taking at least one byte, the sender goes on until it has ended or is
 blocked on an empty channel.  While nobody asks it to stop, it thereby works off everything that waits, in no
 more writes than there are bytes to write, unless it is blocked already: then a message that SendNoDelay has
 left half-sent stays where it is until something else is queued.  Asked to stop, it ends.
 */
module Drain {
  import opened Wrappers
  import opened SendMachine
  import opened Conservation
  import Close = CloseProtocol
  import Order = ShutdownOrder
  import Wire = WireSafety
  import Fifo
  import opened SessionRuns
  import opened SessionTheorems
  import Wakeup

  // The sender runs and nobody has asked to stop.
  predicate Running(s: State) {
    !Rejecting(s.life) && !s.snd.Unstarted? && !s.snd.StopFlag? && !s.snd.StopTest? && !s.snd.Closing? && !s.snd.Ended?
  }

  predicate Blocked(s: State) { s.snd.Parked? && s.q.chan == [] }

  // The sender does nothing more by itself.
  predicate AtRest(s: State) { s.snd.Ended? || Blocked(s) }

  // What the socket answers when it always takes something.
  function Answer(w: State -> nat, s: State): Io { if s.snd.Write? then Wrote(w(s)) else Again }

  ghost predicate Productive(w: State -> nat) {
    forall s: State :: s.snd.Write? && s.snd.bytes != [] ==> 1 <= w(s) <= |s.snd.bytes|
  }

  // ---------------------------------------------------------------- what is left to do

  // Bytes still to be written.
  function Todo(s: State): int {
    |Wire.RestBytes(s.q.list)| - Wire.Pending(s.snd) + |Wire.RestBytes(Fifo.Hand(s.snd))| + |Wire.RestBytes(s.q.chan)|
  }

  function Rank(p: SendPc, length: nat): int {
    match p
    case Ready => length + 17
    case Top => length + 16
    case Fetch(_, _) => length + 15
    case Parked(_, _) => length + 14
    case Woken(_, _, _) => length + 13
    case Gather(_, k, _) => if length == 0 then 17 else length - k + 13
    case Poll(_, _) => 13
    case Write(_, _) => 12
    case Retire(_) => length + 17
    case StopFlag(_) => 6
    case StopTest => 5
    case Closing(at) => CloseRank(at)
    case _ => 0
  }

  function CloseRank(at: ClosePc): int {
    match at
    case TryClose => 4
    case DrainChan => 3
    case DrainList => 2
    case Disconnecting => 1
  }

  // Steps that write nothing cannot go on for ever.
  function Work(s: State): int {
    10 * |s.q.chan| + 10 * |Fifo.Hand(s.snd)| + 5 * |s.q.list| + Rank(s.snd, |s.q.list|)
  }

  ghost predicate Decreases(s: State, t: State) {
    0 <= Todo(t) <= Todo(s) && (Todo(t) == Todo(s) ==> 0 <= Work(t) < Work(s))
  }

  ghost predicate Facts(c: Config, s: State) {
    c.Valid() && !s.snd.Unstarted? && Good(c, s) && Wire.Inv(s)
  }

  lemma RestLength(x: seq<Msg>, m: Msg, y: seq<Msg>)
    ensures |Wire.RestBytes(x + [m] + y)| == |Wire.RestBytes(x + y)| + |m.Rest()|
  {
    Wire.RestConcat(x + [m], y);
    Wire.RestConcat(x, [m]);
    Wire.RestConcat(x, y);
    assert [m][1..] == [];
  }

  lemma HandLength(m: Msg)
    ensures |Wire.RestBytes([m])| == |m.Rest()|
  {
    assert [m][1..] == [];
  }

  // Every message of the list has something left to write.
  lemma BatchNotEmpty(s: State)
    requires Wire.Inv(s) && s.snd.Write? && 1 <= s.snd.k <= |s.q.list|
    ensures s.snd.bytes != []
  {
    var first := s.q.list[..s.snd.k];
    assert first[0] == s.q.list[0];
    Wire.DataFacts(s.h.accepted, s.q.list[0]);
  }

  lemma TodoBound(s: State)
    requires Wire.Inv(s)
    ensures Todo(s) >= 0
  {
  }

  // ---------------------------------------------------------------- one step

  lemma FetchWorks(c: Config, s: State, remain: nat, inserted: nat)
    requires s.snd == Fetch(remain, inserted) && inserted <= |s.q.list| && (remain == 0 ==> s.q.list != [])
    ensures Decreases(s, StepFetch(c, s, remain, inserted))
  {
    if inserted < remain && s.q.chan != [] {
      var m := s.q.chan[0];
      PushLength(s.q.list, m);
      ClassifyWorks(c, s, s.q.(chan := s.q.chan[1..]), m, remain, inserted);
    }
  }

  lemma PushLength(x: seq<Msg>, m: Msg)
    ensures |Wire.RestBytes(x + [m])| == |Wire.RestBytes(x)| + |m.Rest()|
  {
    RestLength(x, m, []);
    assert x + [m] + [] == x + [m] && x + [] == x;
  }

  // Taking a message up moves it to the list or drops it; after a shutdown message buffers are gathered.
  lemma ClassifyWorks(c: Config, s: State, q: Queues, m: Msg, remain: nat, inserted: nat)
    ensures var t := Classify(c, s, q, m, remain, inserted);
      && t.q.chan == q.chan && Wire.Pending(t.snd) == 0 && Fifo.Hand(t.snd) == []
      && ((t.q.list == q.list && Rank(t.snd, |t.q.list|) <= |q.list| + 17)
          || (t.snd.Fetch? && |t.q.list| == |q.list| + 1
              && |Wire.RestBytes(t.q.list)| == |Wire.RestBytes(q.list)| + |m.Rest()|))
  {
    PushLength(q.list, m);
  }

  lemma WokenWorks(c: Config, s: State, m: Msg, remain: nat, inserted: nat)
    requires s.snd == Woken(m, remain, inserted)
    ensures Decreases(s, Classify(c, s, s.q, m, remain, inserted))
  {
    HandLength(m);
    ClassifyWorks(c, s, s.q, m, remain, inserted);
  }

  lemma ParkedWorks(s: State, remain: nat, inserted: nat)
    requires s.snd == Parked(remain, inserted) && s.q.chan != []
    ensures Decreases(s, StepParked(s, remain, inserted))
  {
    HandLength(s.q.chan[0]);
  }

  lemma GatherWorks(c: Config, s: State, cap: nat, k: nat, bytes: Bytes)
    requires c.Valid() && s.snd == Gather(cap, k, bytes) && k <= |s.q.list|
    ensures Decreases(s, StepGather(c, s, cap, k, bytes))
  {
    if k < |s.q.list| && s.q.list[k].timeout && !s.q.list[k].sendHalf {
      var x, m, y := s.q.list[..k], s.q.list[k], s.q.list[k + 1..];
      assert s.q.list == x + [m] + y;
      RestLength(x, m, y);
    }
  }

  lemma RetireWorks(s: State, n: nat)
    requires Wire.Inv(s) && s.snd == Retire(n)
    ensures Decreases(s, StepRetire(s, n))
  {
    if s.q.list != [] && n > 0 && |s.q.list[0].Rest()| > n {
      var m := Advanced(s.q.list, n)[0];
      assert Advanced(s.q.list, n)[1..] == s.q.list[1..];
      assert m.Rest() == s.q.list[0].Rest()[n..];
    }
  }

  lemma WriteWorks(s: State, k: nat, bytes: Bytes, n: nat)
    requires Wire.Inv(s) && s.snd == Write(k, bytes) && 1 <= n <= |bytes|
    ensures var t := StepWrite(s, k, bytes, Wrote(n)); Decreases(s, t) && Todo(t) < Todo(s)
  {
    Wire.WriteTail(s.h.accepted, s.q.list, k, n);
  }

  lemma CloseWorks(s: State, at: ClosePc)
    requires s.snd == Closing(at)
    ensures Decreases(s, StepClose(s, at, SenderAt(NextClose(s, at)), s.rcv))
  {
  }

  lemma MoveWorks(c: Config, s: State, io: Io)
    requires (s.snd.Ready? || s.snd.Top? || s.snd.Poll? || s.snd.StopFlag? || s.snd.StopTest?) && io == Again
    ensures Decreases(s, StepSender(c, s, io))
  {
    var t := StepSender(c, s, io);
    assert t.q == s.q && Fifo.Hand(t.snd) == [] == Fifo.Hand(s.snd) && Wire.Pending(t.snd) == 0 == Wire.Pending(s.snd);
  }

  lemma SoloStep(c: Config, s: State, w: State -> nat)
    requires Facts(c, s) && !AtRest(s) && Productive(w)
    ensures Enabled(c, s, Sender(Answer(w, s)))
    ensures Decreases(s, StepSender(c, s, Answer(w, s)))
    ensures s.snd.Write? ==> Todo(StepSender(c, s, Answer(w, s))) < Todo(s)
  {
    BatchFacts(c, s);
    match s.snd
    case Fetch(remain, inserted) => FetchWorks(c, s, remain, inserted);
    case Woken(m, remain, inserted) => WokenWorks(c, s, m, remain, inserted);
    case Parked(remain, inserted) => ParkedWorks(s, remain, inserted);
    case Gather(cap, k, bytes) => GatherWorks(c, s, cap, k, bytes);
    case Write(k, bytes) =>
      BatchNotEmpty(s);
      WriteWorks(s, k, bytes, w(s));
    case Retire(n) => RetireWorks(s, n);
    case Closing(at) => CloseWorks(s, at);
    case _ => MoveWorks(c, s, Answer(w, s));
  }

  lemma BatchFacts(c: Config, s: State)
    requires Order.Bounded(c, s)
    ensures s.snd.Fetch? ==> s.snd.inserted <= |s.q.list| && (s.snd.remain == 0 ==> s.q.list != [])
    ensures s.snd.Gather? || s.snd.Write? ==> s.snd.k <= |s.q.list|
    ensures s.snd.Write? ==> 1 <= s.snd.k
  {
  }

  // The sender parks only with an empty list.
  lemma ParksEmpty(c: Config, s: State, io: Io)
    requires !Blocked(s) && StepSender(c, s, io).snd.Parked?
    ensures StepSender(c, s, io).q.list == []
  {
  }

  // At rest the sender stays as it is.
  lemma RestStays(c: Config, s: State, w: State -> nat)
    requires AtRest(s)
    ensures StepSender(c, s, Answer(w, s)) == s && !Answer(w, s).Wrote?
  {
  }

  // ---------------------------------------------------------------- the sender alone

  // The state after n steps of the sender alone, when the socket takes w(s) bytes in state s,
  function After(c: Config, s: State, w: State -> nat, n: nat): State {
    if n == 0 then s
    else
      var before := After(c, s, w, n - 1);
      StepSender(c, before, Answer(w, before))
  }

  // ... and the steps that lead there.
  function Alone(c: Config, s: State, w: State -> nat, n: nat): seq<Label> {
    if n == 0 then [] else Alone(c, s, w, n - 1) + [Sender(Answer(w, After(c, s, w, n - 1)))]
  }

  function Writes(ls: seq<Label>): nat {
    if ls == [] then 0
    else Writes(ls[..|ls| - 1]) + if ls[|ls| - 1].Sender? && ls[|ls| - 1].io.Wrote? then 1 else 0
  }

  lemma StartFacts(c: Config, ls: seq<Label>, s: State)
    requires c.Valid() && Wire.Safe(c) && Reaches(c, ls, s) && !s.snd.Unstarted?
    ensures Facts(c, s) && Work(s) >= 0 && Todo(s) >= 0
  {
    GoodReachable(c, ls, s);
    WireReachable(c, ls, s);
    TodoBound(s);
    WorkBound(c, s);
  }

  lemma WorkBound(c: Config, s: State)
    requires Order.Bounded(c, s)
    ensures Work(s) >= 0
  {
  }

  lemma AnswerFits(c: Config, s: State, w: State -> nat)
    requires Facts(c, s) && Productive(w)
    ensures Enabled(c, s, Sender(Answer(w, s)))
  {
    BatchFacts(c, s);
    if s.snd.Write? {
      BatchNotEmpty(s);
    }
  }

  lemma Started(c: Config, s: State, io: Io)
    requires !s.snd.Unstarted?
    ensures !StepSender(c, s, io).snd.Unstarted?
  {
  }

  lemma {:induction false} AloneReaches(c: Config, ls: seq<Label>, s: State, w: State -> nat, n: nat)
    requires c.Valid() && Wire.Safe(c) && Reaches(c, ls, s) && !s.snd.Unstarted? && Productive(w)
    ensures Reaches(c, ls + Alone(c, s, w, n), After(c, s, w, n)) && !After(c, s, w, n).snd.Unstarted?
  {
    if n == 0 {
      assert ls + [] == ls;
    } else {
      var before, t := ls + Alone(c, s, w, n - 1), After(c, s, w, n - 1);
      AloneReaches(c, ls, s, w, n - 1);
      StartFacts(c, before, t);
      AnswerFits(c, t, w);
      Started(c, t, Answer(w, t));
      var ls', t' := Extend(c, before, t, Sender(Answer(w, t)));
      assert ls + Alone(c, s, w, n) == ls';
    }
  }

  // Where the sender comes to the blocking read, the list is empty.
  predicate Clean(s: State, t: State) { t == s || !t.snd.Parked? || t.q.list == [] }

  lemma OneOn(c: Config, ls: seq<Label>, s: State, w: State -> nat, k: nat)
    requires c.Valid() && Wire.Safe(c) && Reaches(c, ls, s) && !s.snd.Unstarted? && Productive(w)
    requires !AtRest(After(c, s, w, k))
    ensures Decreases(After(c, s, w, k), After(c, s, w, k + 1))
    ensures Writes(Alone(c, s, w, k + 1)) - Writes(Alone(c, s, w, k))
            <= Todo(After(c, s, w, k)) - Todo(After(c, s, w, k + 1))
    ensures Clean(s, After(c, s, w, k + 1))
  {
    var here, before := After(c, s, w, k), Alone(c, s, w, k);
    AloneReaches(c, ls, s, w, k);
    StartFacts(c, ls + before, here);
    SoloStep(c, here, w);
    WritesOne(before, Sender(Answer(w, here)));
    if StepSender(c, here, Answer(w, here)).snd.Parked? {
      ParksEmpty(c, here, Answer(w, here));
    }
  }

  lemma WritesOne(ls: seq<Label>, l: Label)
    ensures Writes(ls + [l]) == Writes(ls) + if l.Sender? && l.io.Wrote? then 1 else 0
  {
    assert (ls + [l])[..|ls|] == ls;
  }

  // It comes to rest, after at most one write for each byte there was to write.
  lemma {:induction false} RunsOut(c: Config, ls: seq<Label>, s: State, w: State -> nat, k: nat) returns (n: nat)
    requires c.Valid() && Wire.Safe(c) && Reaches(c, ls, s) && !s.snd.Unstarted? && Productive(w)
    requires Writes(Alone(c, s, w, k)) <= Todo(s) - Todo(After(c, s, w, k))
    requires 0 <= Todo(After(c, s, w, k)) && 0 <= Work(After(c, s, w, k)) && Clean(s, After(c, s, w, k))
    ensures AtRest(After(c, s, w, n)) && Writes(Alone(c, s, w, n)) <= Todo(s) && Clean(s, After(c, s, w, n))
    decreases Todo(After(c, s, w, k)), Work(After(c, s, w, k))
  {
    if AtRest(After(c, s, w, k)) {
      n := k;
    } else {
      OneOn(c, ls, s, w, k);
      AloneReaches(c, ls, s, w, k + 1);
      StartFacts(c, ls + Alone(c, s, w, k + 1), After(c, s, w, k + 1));
      n := RunsOut(c, ls, s, w, k + 1);
    }
  }

  // From any state of a run the sender alone comes to rest, with an empty list if it is blocked and was not
  // before.
  lemma ComesToRest(c: Config, ls: seq<Label>, s: State, w: State -> nat) returns (n: nat)
    requires c.Valid() && Wire.Safe(c) && Reaches(c, ls, s) && !s.snd.Unstarted? && Productive(w)
    ensures AtRest(After(c, s, w, n)) && Writes(Alone(c, s, w, n)) <= Todo(s)
    ensures After(c, s, w, n).snd.Ended? || After(c, s, w, n) == s || After(c, s, w, n).q.list == []
    ensures Reaches(c, ls + Alone(c, s, w, n), After(c, s, w, n))
  {
    StartFacts(c, ls, s);
    n := RunsOut(c, ls, s, w, 0);
    AloneReaches(c, ls, s, w, n);
  }

  // And there it stays.
  lemma {:induction false} StaysAtRest(c: Config, s: State, w: State -> nat, n: nat, k: nat)
    requires AtRest(After(c, s, w, n)) && n <= k
    ensures After(c, s, w, k) == After(c, s, w, n)
    ensures Writes(Alone(c, s, w, k)) == Writes(Alone(c, s, w, n))
  {
    if n < k {
      StaysAtRest(c, s, w, n, k - 1);
      var t := After(c, s, w, k - 1);
      RestStays(c, t, w);
      WritesOne(Alone(c, s, w, k - 1), Sender(Answer(w, t)));
    }
  }

  // ---------------------------------------------------------------- nobody asks to stop

  // No shutdown message is about, and the flag of Shutdown is not set.
  ghost predicate Calm(s: State) {
    && !s.life.initiative && !s.snd.Unstarted? && !Wakeup.Stopping(s.snd)
    && !Order.Taken(s) && Wakeup.AllData(s.q.chan)
  }

  lemma CalmStep(c: Config, s: State, io: Io)
    requires Calm(s) && !io.Failed?
    ensures Calm(StepSender(c, s, io))
  {
  }

  lemma {:induction false} StaysCalm(c: Config, s: State, w: State -> nat, n: nat)
    requires Calm(s)
    ensures Calm(After(c, s, w, n))
  {
    if n > 0 {
      StaysCalm(c, s, w, n - 1);
      CalmStep(c, After(c, s, w, n - 1), Answer(w, After(c, s, w, n - 1)));
    }
  }

  lemma RunningIsCalm(c: Config, s: State)
    requires Running(s) && Order.Inv(s)
    ensures Calm(s)
  {
  }

  // A blocked sender with a half-sent message moves no more by itself.
  predicate Stalled(s: State) { Blocked(s) && s.q.list != [] }

  // After n steps the sender has worked off everything that waited, in at most one write a byte,
  ghost predicate Drained(c: Config, ls: seq<Label>, s: State, w: State -> nat, n: nat) {
    && Reaches(c, ls + Alone(c, s, w, n), After(c, s, w, n))
    && Fifo.Waiting(After(c, s, w, n).q, After(c, s, w, n).snd) == []
    && Writes(Alone(c, s, w, n)) <= Todo(s)
  }

  // ... and it stays like this.
  ghost predicate DrainedFrom(c: Config, ls: seq<Label>, s: State, w: State -> nat, n: nat) {
    forall k: nat :: k >= n ==> Drained(c, ls, s, w, k)
  }

  // However many bytes the socket takes each time, as long as it takes some: left alone, the sender works off
  // everything exactly if it is not stalled.
  lemma DrainsUnlessStalled(c: Config, ls: seq<Label>, s: State, w: State -> nat)
    requires c.Valid() && Wire.Safe(c) && Reaches(c, ls, s) && Running(s) && Productive(w)
    ensures !Stalled(s) <==> exists n: nat :: DrainedFrom(c, ls, s, w, n)
  {
    if Stalled(s) {
      forall n: nat ensures !DrainedFrom(c, ls, s, w, n) {
        StaysAtRest(c, s, w, 0, n);
        assert After(c, s, w, n) == s && !Drained(c, ls, s, w, n);
      }
    } else {
      var n := Drains(c, ls, s, w);
    }
  }

  lemma Drains(c: Config, ls: seq<Label>, s: State, w: State -> nat) returns (n: nat)
    requires c.Valid() && Wire.Safe(c) && Reaches(c, ls, s) && Running(s) && Productive(w) && !Stalled(s)
    ensures DrainedFrom(c, ls, s, w, n)
  {
    GoodReachable(c, ls, s);
    RunningIsCalm(c, s);
    n := ComesToRest(c, ls, s, w);
    StaysCalm(c, s, w, n);
    var t := After(c, s, w, n);
    assert Fifo.Waiting(t.q, t.snd) == [];
    forall k: nat | k >= n ensures Drained(c, ls, s, w, k) {
      AloneReaches(c, ls, s, w, k);
      StaysAtRest(c, s, w, n, k);
    }
  }

  // Whatever the socket answers, a stalled sender stays where it is.
  lemma {:induction false} StalledStays(c: Config, ls: seq<Label>, s: State, ms: seq<Label>, t: State)
    requires Reaches(c, ls, s) && Stalled(s) && Reaches(c, ls + ms, t)
    requires forall i :: 0 <= i < |ms| ==> ms[i].Sender?
    ensures t == s
  {
    if ms == [] {
      assert ls + ms == ls;
    } else {
      PrefixReaches(c, ls, ms);
      StalledStays(c, ls, s, ms[..|ms| - 1], Exec(c, ls + ms[..|ms| - 1]).value);
    }
  }

  // ---------------------------------------------------------------- somebody asks to stop

  // Once the user has called Shutdown, or ShutdownRecv has run to its end, the sender alone comes to an end,
  // unless the message of ShutdownRecv was lost because the channel was full, and neither the user has called
  // Shutdown nor the sender was stopping anyway.  (A write that fails would stop it, too.)
  lemma StopsUnlessLost(c: Config, ls: seq<Label>, s: State, w: State -> nat)
    requires c.Valid() && Wire.Safe(c) && Reaches(c, ls, s) && !s.snd.Unstarted? && Productive(w)
    requires s.life.initiative || s.rcv.REnded?
    ensures (exists n: nat :: After(c, s, w, n).snd.Ended?) <==> MustStop(c, ls, s)
  {
    if MustStop(c, ls, s) {
      var n := ComesToRest(c, ls, s, w);
      KeepsReasons(c, ls, s, w, n);
      if Blocked(After(c, s, w, n)) {
        Wakeup.NeverSleepsThrough(c, ls + Alone(c, s, w, n), After(c, s, w, n));
      }
    } else {
      Wakeup.InvReachable(c, ls, s);
      forall n: nat ensures !After(c, s, w, n).snd.Ended? {
        StaysCalm(c, s, w, n);
      }
    }
  }

  predicate MustStop(c: Config, ls: seq<Label>, s: State) {
    s.life.initiative || !Wakeup.Lost(c, ls) || Wakeup.Stopping(s.snd)
  }

  lemma {:induction false} KeepsReasons(c: Config, ls: seq<Label>, s: State, w: State -> nat, n: nat)
    requires c.Valid() && Reaches(c, ls, s)
    ensures var t := After(c, s, w, n);
      && t.life.initiative == s.life.initiative && t.rcv == s.rcv
      && (Wakeup.Stopping(s.snd) ==> Wakeup.Stopping(t.snd))
      && Wakeup.Lost(c, ls + Alone(c, s, w, n)) == Wakeup.Lost(c, ls)
  {
    if n == 0 {
      assert ls + [] == ls;
    } else {
      KeepsReasons(c, ls, s, w, n - 1);
      var t := After(c, s, w, n - 1);
      KeepsReason(c, t, Answer(w, t));
      var before, all := ls + Alone(c, s, w, n - 1), ls + Alone(c, s, w, n);
      assert all == before + [Sender(Answer(w, t))];
      assert all[..|all| - 1] == before;
    }
  }

  lemma KeepsReason(c: Config, s: State, io: Io)
    ensures var t := StepSender(c, s, io);
      && t.life.initiative == s.life.initiative && t.rcv == s.rcv
      && (Wakeup.Stopping(s.snd) ==> Wakeup.Stopping(t.snd))
  {
    if !Wakeup.Stopping(s.snd) && !s.snd.Unstarted? {
      Close.WorkingSender(c, s, io);
    }
  }

  // Stalling does happen: SendNoDelay writes one byte of two while the sender is blocked.
  lemma StalledReachable(c: Config) returns (ls: seq<Label>, s: State)
    requires c.Valid() && !c.ssl
    ensures Reaches(c, ls, s) && Running(s) && Stalled(s) && s.h.wire == "a" && s.h.accepted == map[0 := "ab"]
  {
    ls, s := [], INIT;
    ls, s := Extend(c, ls, s, Start);
    ls, s := Extend(c, ls, s, Sender(Data));
    ls, s := Extend(c, ls, s, Sender(Data));
    ls, s := Extend(c, ls, s, Sender(Data));
    assert s.snd == Parked(c.cMulti, 0) && s.q == Queues([], [], false);
    ls, s := Extend(c, ls, s, ApiSendNoDelay("ab", true, 1));
  }
}
