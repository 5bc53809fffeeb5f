/**
 The accounting of a partial write: the loop that goes through the send list after writev has taken n bytes.
 */
module PartialWrite {
  import opened SendMachine
  import Wire = WireSafety
  import opened SessionRuns

  // The state in which the loop ends when nobody comes between its iterations.
  function Retired(s: State): State
    decreases |s.q.list|
  {
    if !s.snd.Retire? then s
    else
      var t := StepRetire(s, s.snd.n);
      if |t.q.list| < |s.q.list| then Retired(t) else t
  }

  // The messages at the front of the list that lie within n bytes.
  function Whole(list: seq<Msg>, n: nat): seq<Msg> {
    if list == [] || n == 0 || |list[0].Rest()| > n then []
    else [list[0]] + Whole(list[1..], n - |list[0].Rest()|)
  }

  // The list without them, and without the bytes of the next one that lie within the n bytes.
  function Left(list: seq<Msg>, n: nat): seq<Msg> {
    if list == [] || n == 0 then list
    else if |list[0].Rest()| <= n then Left(list[1..], n - |list[0].Rest()|)
    else Advanced(list, n)
  }

  // The completions of messages that have been sent whole.
  function Completions(a: map<nat, Bytes>, ms: seq<Msg>): seq<Entry> {
    if ms == [] then []
    else [Entry(ms[0].id, Sent, |Wire.Original(a, ms[0].id)|)] + Completions(a, ms[1..])
  }

  // What the loop leaves.
  function Accounted(s: State, list: seq<Msg>, done: seq<Entry>): State {
    s.(q := s.q.(list := list), h := s.h.(log := s.h.log + done), snd := Top)
  }

  // The loop completes, in their order, the messages that lie within the n bytes written.
  lemma {:induction false} TakesExactly(s: State, n: nat)
    requires s.snd == Retire(n) && Wire.ListOk(s.h.accepted, s.q.list)
    ensures Retired(s) == Accounted(s, Left(s.q.list, n), Completions(s.h.accepted, Whole(s.q.list, n)))
    decreases |s.q.list|
  {
    if s.q.list == [] || n == 0 {
      assert s.h.log + [] == s.h.log;
    } else if |s.q.list[0].Rest()| <= n {
      TakesHead(s, n);
      var next := RetireHead(s, n);
      Wire.ListTail(s.h.accepted, s.q.list);
      TakesExactly(next, n - |s.q.list[0].Rest()|);
    } else {
      assert s.h.log + [] == s.h.log;
    }
  }

  lemma TakesHead(s: State, n: nat)
    requires s.q.list != [] && Wire.DataOk(s.h.accepted, s.q.list[0]) && 0 < n && |s.q.list[0].Rest()| <= n
    ensures var next, left := RetireHead(s, n), n - |s.q.list[0].Rest()|;
      Accounted(next, Left(next.q.list, left), Completions(s.h.accepted, Whole(next.q.list, left)))
      == Accounted(s, Left(s.q.list, n), Completions(s.h.accepted, Whole(s.q.list, n)))
  {
    var later := Whole(s.q.list[1..], n - |s.q.list[0].Rest()|);
    CompletionsOfHead(s.h.accepted, s.h.log, s.q.list[0], later);
    SameAccount(s, RetireHead(s, n), Left(s.q.list, n), Completions(s.h.accepted, Whole(s.q.list, n)),
                Completions(s.h.accepted, later));
  }

  lemma SameAccount(s: State, t: State, list: seq<Msg>, done: seq<Entry>, later: seq<Entry>)
    requires t == s.(q := s.q.(list := t.q.list), h := s.h.(log := t.h.log), snd := t.snd)
    requires t.h.log + later == s.h.log + done
    ensures Accounted(t, list, later) == Accounted(s, list, done)
  {
  }

  lemma CompletionsOfHead(a: map<nat, Bytes>, log: seq<Entry>, m: Msg, later: seq<Msg>)
    requires Wire.DataOk(a, m)
    ensures DoneLog(a, log, m, Sent, |m.Rest()|) + Completions(a, later) == log + Completions(a, [m] + later)
  {
    assert ([m] + later)[1..] == later;
    Wire.DataFacts(a, m);
  }

  // Of what was to be written exactly the first n bytes are gone; nothing of n is left over, and again only
  // the head may be half-sent.
  lemma {:induction false} LosesExactly(a: map<nat, Bytes>, list: seq<Msg>, n: nat)
    requires Wire.ListOk(a, list) && n <= |Wire.RestBytes(list)|
    ensures Wire.RestBytes(Left(list, n)) == Wire.RestBytes(list)[n..]
    ensures Wire.ListOk(a, Left(list, n))
  {
    if list == [] || n == 0 {
    } else if |list[0].Rest()| <= n {
      Wire.ListTail(a, list);
      LosesExactly(a, list[1..], n - |list[0].Rest()|);
      DropBoth(list[0].Rest(), Wire.RestBytes(list[1..]), n);
    } else {
      Wire.AdvanceList(a, list, n);
      AdvancedBytes(list, n);
    }
  }

  lemma DropBoth(x: Bytes, y: Bytes, n: nat)
    requires |x| <= n <= |x + y|
    ensures (x + y)[n..] == y[n - |x|..]
  {
  }

  lemma AdvancedBytes(list: seq<Msg>, n: nat)
    requires list != [] && n < |list[0].Rest()|
    ensures Wire.RestBytes(Advanced(list, n)) == Wire.RestBytes(list)[n..]
  {
    var m := Advanced(list, n)[0];
    assert Advanced(list, n)[1..] == list[1..] && m.Rest() == list[0].Rest()[n..];
    assert (list[0].Rest() + Wire.RestBytes(list[1..]))[n..] == m.Rest() + Wire.RestBytes(list[1..]);
  }

  // No message is lost or moved: the completed ones come first, and behind them nothing has changed, but for
  // the position of the next one.
  lemma {:induction false} KeepsOrder(list: seq<Msg>, n: nat)
    ensures |Whole(list, n)| + |Left(list, n)| == |list|
    ensures Whole(list, n) <= list
    ensures Left(list, n) != [] ==>
      var k := |Whole(list, n)|;
      Left(list, n)[0].(pos := 0, sendHalf := true) == list[k].(pos := 0, sendHalf := true)
      && Left(list, n)[1..] == list[k + 1..]
  {
    if list != [] && n > 0 && |list[0].Rest()| <= n {
      KeepsOrder(list[1..], n - |list[0].Rest()|);
    }
  }

  // All of this holds after every write in every run.
  lemma AfterEveryWrite(c: Config, ls: seq<Label>, s: State)
    requires c.Valid() && Wire.Safe(c) && Reaches(c, ls, s) && s.snd.Retire?
    ensures s.snd.n <= |Wire.RestBytes(s.q.list)|
    ensures Retired(s) == Accounted(s, Left(s.q.list, s.snd.n), Completions(s.h.accepted, Whole(s.q.list, s.snd.n)))
    ensures Wire.RestBytes(Retired(s).q.list) == Wire.RestBytes(s.q.list)[s.snd.n..]
  {
    WireReachable(c, ls, s);
    TakesExactly(s, s.snd.n);
    LosesExactly(s.h.accepted, s.q.list, s.snd.n);
  }
}
