/**
 No tearing: what is on the wire is, in completion order, the messages completed with success, then
 at most one proper prefix of one more message.

 Holds in every configuration in which SendNoDelay cannot write between two rounds of the sender
 (`Safe`).  NoTearing.dfy shows that every step keeps it; SessionTheorems.TearingRun is a run that breaks it
 in any other configuration.
 */
module WireSafety {
  import opened Wrappers
  import opened SendMachine
  import Close = CloseProtocol
  import Order = ShutdownOrder
  import opened Conservation

  predicate Safe(c: Config) { !c.window || c.guard || c.ssl }

  // ---------------------------------------------------------------- bytes still to be written

  function RestBytes(ms: seq<Msg>): Bytes {
    if ms == [] then [] else ms[0].Rest() + RestBytes(ms[1..])
  }

  lemma {:induction false} RestConcat(a: seq<Msg>, b: seq<Msg>)
    ensures RestBytes(a + b) == RestBytes(a) + RestBytes(b)
  {
    if a == [] {
      assert a + b == b;
    } else {
      assert (a + b)[1..] == a[1..] + b;
      RestConcat(a[1..], b);
    }
  }

  lemma RestSplit(ms: seq<Msg>, k: nat)
    requires k <= |ms|
    ensures RestBytes(ms) == RestBytes(ms[..k]) + RestBytes(ms[k..])
  {
    assert ms == ms[..k] + ms[k..];
    RestConcat(ms[..k], ms[k..]);
  }

  lemma RestNext(ms: seq<Msg>, k: nat)
    requires k < |ms|
    ensures RestBytes(ms[..k + 1]) == RestBytes(ms[..k]) + ms[k].Rest()
  {
    assert ms[..k + 1] == ms[..k] + [ms[k]];
    RestConcat(ms[..k], [ms[k]]);
    assert RestBytes([ms[k]]) == ms[k].Rest() + [];
  }

  lemma {:induction false} RestTimeout(ms: seq<Msg>, id: nat)
    ensures RestBytes(SetTimeout(ms, id)) == RestBytes(ms)
  {
    if ms != [] {
      assert SetTimeout(ms, id)[1..] == SetTimeout(ms[1..], id);
      RestTimeout(ms[1..], id);
    }
  }

  // ---------------------------------------------------------------- bytes accounted for

  function Original(accepted: map<nat, Bytes>, id: nat): Bytes {
    if id in accepted then accepted[id] else []
  }

  // The first n bytes of b, or all there are.
  function Prefix(b: Bytes, n: int): Bytes { if 0 <= n <= |b| then b[..n] else b }

  // The messages completed with success, in completion order.
  function SentBytes(accepted: map<nat, Bytes>, log: seq<Entry>): Bytes {
    if log == [] then []
    else
      var e := log[|log| - 1];
      SentBytes(accepted, log[..|log| - 1]) + if e.verdict.Sent? then Original(accepted, e.id) else []
  }

  // The counted bytes of every completed message, in completion order.
  function CountedBytes(accepted: map<nat, Bytes>, log: seq<Entry>): Bytes {
    if log == [] then []
    else
      var e := log[|log| - 1];
      CountedBytes(accepted, log[..|log| - 1]) + Prefix(Original(accepted, e.id), e.count)
  }

  // The written part of the last message that the shutdown cut in two, if there is one.
  function Torn(accepted: map<nat, Bytes>, log: seq<Entry>): Bytes {
    if log == [] then []
    else
      var e := log[|log| - 1];
      if e.verdict.ShutDown? && e.count != 0 then Prefix(Original(accepted, e.id), e.count)
      else Torn(accepted, log[..|log| - 1])
  }

  // The written part of a message.
  function Written(accepted: map<nat, Bytes>, m: Msg): Bytes {
    Prefix(Original(accepted, m.id), CountOf(accepted, m))
  }

  function HeadSent(accepted: map<nat, Bytes>, list: seq<Msg>): Bytes {
    if list == [] then [] else Written(accepted, list[0])
  }

  function Pending(p: SendPc): nat { if p.Retire? then p.n else 0 }

  // ---------------------------------------------------------------- the invariant

  // r is what is left of o after dropping some bytes at the front.
  predicate Suffix(o: Bytes, r: Bytes) { o == r || (o != [] && Suffix(o[1..], r)) }

  lemma {:induction false} SuffixSplits(o: Bytes, r: Bytes)
    requires Suffix(o, r)
    ensures |r| <= |o| && o == o[..|o| - |r|] + r
  {
    if o == r {
      assert o[..0] == [];
    } else {
      SuffixSplits(o[1..], r);
    }
  }

  lemma {:induction false} SuffixOfSuffix(o: Bytes, r: Bytes, n: nat)
    requires Suffix(o, r) && n <= |r|
    ensures Suffix(o, r[n..])
  {
    if o == r {
      DropIsSuffix(o, n);
    } else {
      SuffixOfSuffix(o[1..], r, n);
    }
  }

  lemma {:induction false} DropIsSuffix(o: Bytes, n: nat)
    requires n <= |o|
    ensures Suffix(o, o[n..])
  {
    if n > 0 {
      DropIsSuffix(o[1..], n - 1);
      assert o[1..][n - 1..] == o[n..];
    } else {
      assert o[0..] == o;
    }
  }

  predicate DataOk(accepted: map<nat, Bytes>, m: Msg) {
    && !m.shutdown && m.id in accepted && m.pos < |m.buf|
    && Suffix(accepted[m.id], m.Rest())
    && (m.sendHalf <==> CountOf(accepted, m) > 0)
  }

  // What DataOk means for the written part of a message.
  lemma DataFacts(accepted: map<nat, Bytes>, m: Msg)
    requires DataOk(accepted, m)
    ensures 0 <= CountOf(accepted, m) < |accepted[m.id]|
    ensures |Written(accepted, m)| == CountOf(accepted, m)
    ensures accepted[m.id] == Written(accepted, m) + m.Rest()
    ensures !m.sendHalf ==> Written(accepted, m) == []
  {
    SuffixSplits(accepted[m.id], m.Rest());
  }

  // A message of which nothing has been written; in the channel it may also be a shutdown message.
  predicate Untouched(accepted: map<nat, Bytes>, m: Msg, data: bool) {
    if m.shutdown then !data else DataOk(accepted, m) && !m.sendHalf
  }

  predicate AllUntouched(accepted: map<nat, Bytes>, ms: seq<Msg>, data: bool) {
    ms == [] || (Untouched(accepted, ms[0], data) && AllUntouched(accepted, ms[1..], data))
  }

  // Only the head of the send list may be half-sent.
  predicate ListOk(accepted: map<nat, Bytes>, list: seq<Msg>) {
    list == [] || (DataOk(accepted, list[0]) && AllUntouched(accepted, list[1..], true))
  }

  predicate EntryOk(accepted: map<nat, Bytes>, e: Entry) {
    && e.id in accepted && 0 <= e.count <= |accepted[e.id]| && accepted[e.id] != []
    && (e.verdict.Sent? <==> e.count == |accepted[e.id]|)
    && (e.verdict.TimedOut? ==> e.count == 0)
  }

  predicate LogOk(accepted: map<nat, Bytes>, log: seq<Entry>) {
    log == [] || (EntryOk(accepted, log[|log| - 1]) && LogOk(accepted, log[..|log| - 1]))
  }

  // Nothing has been given up.
  predicate NoneCut(log: seq<Entry>) {
    log == [] || (!log[|log| - 1].verdict.ShutDown? && NoneCut(log[..|log| - 1]))
  }

  predicate HasBatch(p: SendPc) { p.Gather? || p.Write? || p.Poll? }

  // The gathered buffers are the first k messages of the list; no more is to be retired than there is.
  predicate PcOk(list: seq<Msg>, p: SendPc) {
    && (HasBatch(p) ==> p.k <= |list| && p.bytes == RestBytes(list[..p.k]))
    && Pending(p) <= |RestBytes(list)|
  }

  // Accounted for by the completed messages, and by the send list with `pending` bytes still to be
  // retired from it.
  function Base(accepted: map<nat, Bytes>, log: seq<Entry>): Bytes {
    SentBytes(accepted, log) + Torn(accepted, log)
  }

  function Tail(accepted: map<nat, Bytes>, list: seq<Msg>, pending: nat): Bytes {
    HeadSent(accepted, list) + Prefix(RestBytes(list), pending)
  }

  // The completed messages are in order, and nothing is given up before the close.
  predicate CompletedOk(accepted: map<nat, Bytes>, log: seq<Entry>, closed: bool) {
    match closed
    case true => LogOk(accepted, log) && CountedBytes(accepted, log) == Base(accepted, log)
    case false => LogOk(accepted, log) && CountedBytes(accepted, log) == Base(accepted, log) && NoneCut(log)
  }

  // Only one message can have been cut in two.
  predicate OneCut(torn: Bytes, list: seq<Msg>) { torn == [] || list == [] || !list[0].sendHalf }

  predicate HandOk(accepted: map<nat, Bytes>, p: SendPc) { p.Woken? ==> Untouched(accepted, p.hand, false) }

  predicate WireOk(wire: Bytes, accepted: map<nat, Bytes>, log: seq<Entry>, list: seq<Msg>, pending: nat) {
    wire == Base(accepted, log) + Tail(accepted, list, pending)
  }

  predicate Accounted(h: History, q: Queues, closed: bool, p: SendPc) {
    && AllUntouched(h.accepted, q.chan, false)
    && ListOk(h.accepted, q.list)
    && CompletedOk(h.accepted, h.log, closed)
    && OneCut(Torn(h.accepted, h.log), q.list)
    && PcOk(q.list, p)
    && WireOk(h.wire, h.accepted, h.log, q.list, Pending(p))
  }

  predicate Inv(s: State) {
    match s.snd
    case Woken(m, _, _) => Accounted(s.h, s.q, s.life.closed, s.snd) && Untouched(s.h.accepted, m, false)
    case _ => Accounted(s.h, s.q, s.life.closed, s.snd)
  }

  // ---------------------------------------------------------------- the completed messages

  lemma {:induction false} NoneCutNoTorn(accepted: map<nat, Bytes>, log: seq<Entry>)
    requires NoneCut(log)
    ensures Torn(accepted, log) == []
  {
    if log != [] {
      NoneCutNoTorn(accepted, log[..|log| - 1]);
    }
  }

  // Accepting a new message changes nothing about the old ones.
  lemma {:induction false} BaseOfLarger(a: map<nat, Bytes>, id: nat, bytes: Bytes, log: seq<Entry>)
    requires LogOk(a, log) && id !in a
    ensures SentBytes(a[id := bytes], log) == SentBytes(a, log)
    ensures Torn(a[id := bytes], log) == Torn(a, log)
    ensures CountedBytes(a[id := bytes], log) == CountedBytes(a, log)
    ensures LogOk(a[id := bytes], log)
  {
    if log != [] {
      BaseOfLarger(a, id, bytes, log[..|log| - 1]);
    }
  }

  lemma LogAppend(a: map<nat, Bytes>, log: seq<Entry>, e: Entry)
    ensures LogOk(a, log) && EntryOk(a, e) ==> LogOk(a, log + [e])
    ensures NoneCut(log) && !e.verdict.ShutDown? ==> NoneCut(log + [e])
    ensures CountedBytes(a, log + [e]) == CountedBytes(a, log) + Prefix(Original(a, e.id), e.count)
    ensures SentBytes(a, log + [e]) == SentBytes(a, log) + if e.verdict.Sent? then Original(a, e.id) else []
    ensures Torn(a, log + [e]) ==
      if e.verdict.ShutDown? && e.count != 0 then Prefix(Original(a, e.id), e.count) else Torn(a, log)
  {
    assert (log + [e])[..|log|] == log;
  }

  lemma LogUncounted(a: map<nat, Bytes>, log: seq<Entry>, e: Entry, closed: bool)
    requires CompletedOk(a, log, closed) && EntryOk(a, e) && e.count == 0 && (closed || e.verdict.TimedOut?)
    ensures CompletedOk(a, log + [e], closed)
    ensures Base(a, log + [e]) == Base(a, log) && Torn(a, log + [e]) == Torn(a, log)
  {
    LogAppend(a, log, e);
    assert Prefix(Original(a, e.id), 0) == [];
  }

  // Giving up a message that has not been touched, on a timeout or at the close.
  lemma DoneUntouched(a: map<nat, Bytes>, log: seq<Entry>, m: Msg, v: Verdict, closed: bool)
    requires CompletedOk(a, log, closed) && Untouched(a, m, false) && !v.Sent? && (closed || v.TimedOut?)
    ensures var t := DoneLog(a, log, m, v, 0);
      CompletedOk(a, t, closed) && Base(a, t) == Base(a, log) && Torn(a, t) == Torn(a, log)
  {
    if !m.shutdown {
      DataFacts(a, m);
      LogUncounted(a, log, Entry(m.id, v, CountOf(a, m)), closed);
    }
  }

  // Giving up the half-sent head, at the close.
  lemma DoneHalf(a: map<nat, Bytes>, log: seq<Entry>, m: Msg)
    requires CompletedOk(a, log, true) && DataOk(a, m) && m.sendHalf && Torn(a, log) == []
    ensures var t := DoneLog(a, log, m, ShutDown, 0);
      CompletedOk(a, t, true) && Base(a, t) == Base(a, log) + Written(a, m)
  {
    DataFacts(a, m);
    LogAppend(a, log, Entry(m.id, ShutDown, CountOf(a, m)));
  }

  // Completing a message with success, before the close.
  lemma LogSent(a: map<nat, Bytes>, log: seq<Entry>, id: nat)
    requires CompletedOk(a, log, false) && id in a && a[id] != []
    ensures var t := log + [Entry(id, Sent, |a[id]|)];
      CompletedOk(a, t, false) && Base(a, t) == Base(a, log) + a[id] && Torn(a, t) == [] == Torn(a, log)
  {
    LogAppend(a, log, Entry(id, Sent, |a[id]|));
    NoneCutNoTorn(a, log);
  }

  lemma DoneSent(a: map<nat, Bytes>, log: seq<Entry>, m: Msg)
    requires CompletedOk(a, log, false) && DataOk(a, m)
    ensures var t := DoneLog(a, log, m, Sent, |m.Rest()|);
      CompletedOk(a, t, false) && Base(a, t) == Base(a, log) + a[m.id] && Torn(a, t) == []
  {
    DataFacts(a, m);
    LogSent(a, log, m.id);
  }

  // ---------------------------------------------------------------- the queues

  lemma {:induction false} AllUntouchedOfLarger(a: map<nat, Bytes>, id: nat, bytes: Bytes, ms: seq<Msg>, data: bool)
    requires AllUntouched(a, ms, data) && id !in a
    ensures AllUntouched(a[id := bytes], ms, data)
  {
    if ms != [] {
      AllUntouchedOfLarger(a, id, bytes, ms[1..], data);
    }
  }

  lemma AcceptKeepsList(a: map<nat, Bytes>, id: nat, bytes: Bytes, list: seq<Msg>)
    requires ListOk(a, list) && id !in a
    ensures ListOk(a[id := bytes], list) && HeadSent(a[id := bytes], list) == HeadSent(a, list)
  {
    if list != [] {
      AllUntouchedOfLarger(a, id, bytes, list[1..], true);
    }
  }

  lemma {:induction false} AllUntouchedConcat(a: map<nat, Bytes>, x: seq<Msg>, y: seq<Msg>, data: bool)
    ensures AllUntouched(a, x + y, data) == (AllUntouched(a, x, data) && AllUntouched(a, y, data))
  {
    if x == [] {
      assert x + y == y;
    } else {
      assert (x + y)[1..] == x[1..] + y;
      AllUntouchedConcat(a, x[1..], y, data);
    }
  }

  lemma PushBack(a: map<nat, Bytes>, ms: seq<Msg>, m: Msg, data: bool)
    requires AllUntouched(a, ms, data) && Untouched(a, m, data)
    ensures AllUntouched(a, ms + [m], data)
  {
    AllUntouchedConcat(a, ms, [m], data);
    assert [m][1..] == [];
  }

  lemma HalfSentOk(a: map<nat, Bytes>, id: nat, bytes: Bytes, raw: bool, written: nat)
    requires id in a && a[id] == bytes && 0 < written < |bytes|
    ensures var m := HalfSent(id, bytes, raw, written);
      DataOk(a, m) && Tail(a, [m], 0) == bytes[..written]
  {
    var m := HalfSent(id, bytes, raw, written);
    assert m.Rest() == bytes[written..];
    DropIsSuffix(bytes, written);
    assert HeadSent(a, [m]) == bytes[..written];
    assert Prefix(RestBytes([m]), 0) == [];
  }

  lemma PushBackList(a: map<nat, Bytes>, list: seq<Msg>, m: Msg)
    requires ListOk(a, list) && Untouched(a, m, true)
    ensures ListOk(a, list + [m])
    ensures Tail(a, list + [m], 0) == Tail(a, list, 0)
  {
    NothingPending(a, list);
    NothingPending(a, list + [m]);
    DataFacts(a, m);
    if list == [] {
      assert list + [m] == [m] && [m][1..] == [];
    } else {
      assert (list + [m])[1..] == list[1..] + [m];
      PushBack(a, list[1..], m, true);
    }
  }

  // Dropping a message that is not half-sent.
  lemma EraseList(a: map<nat, Bytes>, list: seq<Msg>, k: nat)
    requires ListOk(a, list) && k < |list| && !list[k].sendHalf
    ensures var rest := list[..k] + list[k + 1..];
      ListOk(a, rest) && rest[..k] == list[..k] && Tail(a, rest, 0) == Tail(a, list, 0)
      && DataOk(a, list[k])
  {
    var rest := list[..k] + list[k + 1..];
    NothingPending(a, list);
    NothingPending(a, rest);
    DataFacts(a, list[0]);
    if k == 0 {
      assert rest == list[1..];
      ListTail(a, list);
    } else {
      assert list[1..] == list[1..k] + ([list[k]] + list[k + 1..]);
      assert rest[1..] == list[1..k] + list[k + 1..];
      AllUntouchedConcat(a, list[1..k], [list[k]] + list[k + 1..], true);
      AllUntouchedConcat(a, list[1..k], list[k + 1..], true);
      assert ([list[k]] + list[k + 1..])[1..] == list[k + 1..];
    }
  }

  lemma NothingPending(a: map<nat, Bytes>, list: seq<Msg>)
    ensures Tail(a, list, 0) == HeadSent(a, list)
  {
    assert Prefix(RestBytes(list), 0) == [];
  }

  // Writing n bytes of the first k messages.
  lemma WriteTail(a: map<nat, Bytes>, list: seq<Msg>, k: nat, n: nat)
    requires k <= |list| && n <= |RestBytes(list[..k])|
    ensures n <= |RestBytes(list)|
    ensures Tail(a, list, n) == Tail(a, list, 0) + RestBytes(list[..k])[..n]
  {
    RestSplit(list, k);
    assert RestBytes(list)[..n] == RestBytes(list[..k])[..n];
  }

  // o is x + y, all of y has been written, and n - |y| bytes of what follows.
  lemma WholeBytes(o: Bytes, x: Bytes, y: Bytes, more: Bytes, n: nat)
    requires o == x + y && |y| <= n <= |y + more|
    ensures x + (y + more)[..n] == o + more[..n - |y|]
  {
    assert (y + more)[..n] == y + more[..n - |y|];
    assert x + (y + more[..n - |y|]) == (x + y) + more[..n - |y|];
  }

  // o is x + y, and only n bytes of y have been written.
  lemma PartBytes(o: Bytes, x: Bytes, y: Bytes, more: Bytes, n: nat)
    requires o == x + y && n <= |y|
    ensures x + (y + more)[..n] == Prefix(o, |x| + n)
  {
    assert (y + more)[..n] == y[..n];
  }

  lemma MakeList(a: map<nat, Bytes>, m: Msg, rest: seq<Msg>, list: seq<Msg>)
    requires list == [m] + rest && DataOk(a, m) && AllUntouched(a, rest, true)
    ensures ListOk(a, list)
  {
    assert list[1..] == rest;
  }

  lemma ListTail(a: map<nat, Bytes>, list: seq<Msg>)
    requires ListOk(a, list) && list != []
    ensures ListOk(a, list[1..]) && HeadSent(a, list[1..]) == []
    ensures list[1..] == [] || !list[1].sendHalf
  {
    if list[1..] != [] {
      DataFacts(a, list[1]);
    }
  }

  // Retiring the head, all of which has been written.
  lemma RetireTail(a: map<nat, Bytes>, list: seq<Msg>, n: nat)
    requires list != [] && DataOk(a, list[0]) && HeadSent(a, list[1..]) == []
    requires |list[0].Rest()| <= n <= |RestBytes(list)|
    ensures n - |list[0].Rest()| <= |RestBytes(list[1..])|
    ensures Tail(a, list, n) == a[list[0].id] + Tail(a, list[1..], n - |list[0].Rest()|)
  {
    DataFacts(a, list[0]);
    WholeBytes(a[list[0].id], HeadSent(a, list), list[0].Rest(), RestBytes(list[1..]), n);
    assert [] + RestBytes(list[1..])[..n - |list[0].Rest()|] == RestBytes(list[1..])[..n - |list[0].Rest()|];
  }

  lemma Assoc(x: Bytes, y: Bytes, z: Bytes)
    ensures (x + y) + z == x + (y + z)
  {
  }

  lemma AdvancedWritten(a: map<nat, Bytes>, m: Msg, n: nat)
    requires DataOk(a, m) && 0 < n < |m.Rest()|
    ensures Written(a, m.(pos := m.pos + n, sendHalf := true)) == Prefix(a[m.id], CountOf(a, m) + n)
  {
    AdvanceOk(a, m, n);
  }

  // Advancing the head, part of which has been written.
  lemma AdvanceTail(a: map<nat, Bytes>, list: seq<Msg>, n: nat)
    requires list != [] && DataOk(a, list[0]) && 0 < n < |list[0].Rest()|
    ensures Tail(a, Advanced(list, n), 0) == Tail(a, list, n)
  {
    NothingPending(a, Advanced(list, n));
    AdvancedWritten(a, list[0], n);
    DataFacts(a, list[0]);
    PartBytes(a[list[0].id], HeadSent(a, list), list[0].Rest(), RestBytes(list[1..]), n);
  }

  lemma AdvanceList(a: map<nat, Bytes>, list: seq<Msg>, n: nat)
    requires ListOk(a, list) && list != [] && 0 < n < |list[0].Rest()|
    ensures ListOk(a, Advanced(list, n))
  {
    AdvanceOk(a, list[0], n);
    MakeList(a, Advanced(list, n)[0], list[1..], Advanced(list, n));
  }

  lemma AdvanceOk(a: map<nat, Bytes>, m: Msg, n: nat)
    requires DataOk(a, m) && 0 < n < |m.Rest()|
    ensures DataOk(a, m.(pos := m.pos + n, sendHalf := true))
    ensures CountOf(a, m.(pos := m.pos + n, sendHalf := true)) == CountOf(a, m) + n
  {
    SuffixOfSuffix(a[m.id], m.Rest(), n);
    SuffixSplits(a[m.id], m.Rest());
    assert m.(pos := m.pos + n, sendHalf := true).Rest() == m.Rest()[n..];
  }

  // Dropping the head, at the close.
  lemma DropHead(a: map<nat, Bytes>, list: seq<Msg>)
    requires ListOk(a, list) && list != []
    ensures Tail(a, list[1..], 0) == []
    ensures Tail(a, list, 0) == if list[0].sendHalf then Written(a, list[0]) else []
  {
    NothingPending(a, list);
    NothingPending(a, list[1..]);
    ListTail(a, list);
    DataFacts(a, list[0]);
  }

  // ---------------------------------------------------------------- timers

  lemma {:induction false} TimerKeepsAll(a: map<nat, Bytes>, ms: seq<Msg>, data: bool, id: nat)
    requires AllUntouched(a, ms, data)
    ensures AllUntouched(a, SetTimeout(ms, id), data)
  {
    if ms != [] {
      assert SetTimeout(ms, id)[1..] == SetTimeout(ms[1..], id);
      TimerKeepsOne(a, ms[0], id);
      TimerKeepsAll(a, ms[1..], data, id);
    }
  }

  lemma TimerKeepsOne(a: map<nat, Bytes>, m: Msg, id: nat)
    ensures DataOk(a, m) ==> DataOk(a, TimeoutOne(m, id))
    ensures Written(a, TimeoutOne(m, id)) == Written(a, m)
  {
  }

  lemma TimerKeepsList(a: map<nat, Bytes>, list: seq<Msg>, id: nat)
    requires ListOk(a, list)
    ensures ListOk(a, SetTimeout(list, id)) && HeadSent(a, SetTimeout(list, id)) == HeadSent(a, list)
  {
    if list != [] {
      TimerKeepsOne(a, list[0], id);
      TimerKeepsAll(a, list[1..], true, id);
      MakeList(a, TimeoutOne(list[0], id), SetTimeout(list[1..], id), SetTimeout(list, id));
    }
  }

  lemma TimerKeepsTail(a: map<nat, Bytes>, list: seq<Msg>, pending: nat, id: nat)
    requires ListOk(a, list)
    ensures Tail(a, SetTimeout(list, id), pending) == Tail(a, list, pending)
  {
    TimerKeepsList(a, list, id);
    RestTimeout(list, id);
  }

  lemma TimerKeepsCut(torn: Bytes, list: seq<Msg>, id: nat)
    requires OneCut(torn, list)
    ensures OneCut(torn, SetTimeout(list, id))
  {
  }

  lemma TimerKeepsPc(list: seq<Msg>, p: SendPc, id: nat)
    requires PcOk(list, p)
    ensures PcOk(SetTimeout(list, id), p)
  {
    RestTimeout(list, id);
    if HasBatch(p) {
      assert SetTimeout(list, id)[..p.k] == SetTimeout(list[..p.k], id);
      RestTimeout(list[..p.k], id);
    }
  }
}
