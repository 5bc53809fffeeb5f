/**
 The session object, with goSend as the loop it is.

 Every method is proved to do what the step system says: the ghost field `run` records the steps taken
 by all actors since the session was made, and `Valid` says that replaying them gives the fields as they
 are.  So every result about runs holds of the object.

 goSend is cut at the places where other coroutines may run: there it calls `Others`, which performs any
 steps of the other actors that the caller of goSend has chosen.  What the socket answers is chosen by
 the caller, too.  As goSend loops for ever, a budget of loop iterations ends it.
 */
module TcpSession {
  import opened Wrappers
  import opened SendMachine
  import opened SessionRecord
  import opened SessionRuns
  import opened SessionTheorems
  import Close = CloseProtocol
  import Order = ShutdownOrder
  import Wire = WireSafety

  // What the outside world does, by the clock.
  datatype Env = Env(io: nat -> Io, others: nat -> seq<Label>)

  // What a call of Send tells its caller at once; Queued means that the callback comes later.
  datatype Answer = Ok | Rejected | Overflow | Queued

  // Steps of actors other than goSend that can be taken at any time.
  predicate IsPossible(l: Label) {
    match l
    case ApiSendNoDelay(bytes, _, written) => written <= |bytes|
    case Receiver(io) => (io.Failed? ==> io.ec != 0) && !io.Wrote?
    case Start => false
    case Sender(_) => false
    case _ => true
  }

  function Possible(ls: seq<Label>): seq<Label> {
    if ls == [] then []
    else Possible(ls[..|ls| - 1]) + if IsPossible(ls[|ls| - 1]) then [ls[|ls| - 1]] else []
  }

  function Foreign(ls: seq<Label>): seq<Label> {
    if ls == [] then []
    else Foreign(ls[..|ls| - 1]) + if ls[|ls| - 1].Sender? then [] else [ls[|ls| - 1]]
  }

  // What the other actors do while the clock goes down from hi to lo.
  function Turns(env: Env, hi: nat, lo: nat): seq<Label>
    decreases hi - lo
  {
    if hi <= lo then [] else Turns(env, hi, lo + 1) + Possible(env.others(lo))
  }

  // An answer of the socket at one of these times, unless there is none or the call is made again.
  ghost predicate FromEnv(env: Env, io: Io, hi: nat, lo: nat) {
    io.Data? || io.Interrupted? || exists t: nat :: lo <= t < hi && io == env.io(t)
  }

  ghost predicate Answered(env: Env, was: seq<Label>, run: seq<Label>, hi: nat, lo: nat) {
    forall i :: |was| <= i < |run| && run[i].Sender? ==> FromEnv(env, run[i].io, hi, lo)
  }

  // While the clock has gone down from hi to lo, the other actors have done all that `env` has them do, nothing
  // else and in this order, and the sender has got its answers from `env`.
  ghost predicate Scripted(env: Env, was: seq<Label>, run: seq<Label>, hi: nat, lo: nat) {
    && was <= run && lo <= hi && Foreign(run) == Foreign(was) + Turns(env, hi, lo)
    && Answered(env, was, run, hi, lo)
  }

  // ... and the sender has moved at least once each time.
  ghost predicate Spent(env: Env, was: seq<Label>, run: seq<Label>, budget: nat, clock: nat) {
    Scripted(env, was, run, budget, clock) && |run| - |was| >= budget - clock
  }

  lemma NothingYet(env: Env, run: seq<Label>, clock: nat)
    ensures Spent(env, run, run, clock, clock)
  {
  }

  lemma OwnStep(env: Env, was: seq<Label>, run: seq<Label>, hi: nat, lo: nat, io: Io)
    requires Scripted(env, was, run, hi, lo) && FromEnv(env, io, hi, lo)
    ensures Scripted(env, was, run + [Sender(io)], hi, lo)
  {
    assert (run + [Sender(io)])[..|run|] == run;
  }

  lemma OthersTurn(env: Env, was: seq<Label>, run: seq<Label>, hi: nat, lo: nat)
    requires Scripted(env, was, run, hi, lo + 1)
    ensures Scripted(env, was, run + Possible(env.others(lo)), hi, lo)
  {
    var ls := Possible(env.others(lo));
    ForeignOfPossible(run, env.others(lo));
    PossibleIsForeign(env.others(lo));
    AnsweredStill(env, was, run, ls, hi, lo);
    assert Foreign(was) + Turns(env, hi, lo + 1) + ls == Foreign(was) + (Turns(env, hi, lo + 1) + ls);
  }

  lemma AnsweredStill(env: Env, was: seq<Label>, run: seq<Label>, more: seq<Label>, hi: nat, lo: nat)
    requires Answered(env, was, run, hi, lo + 1) && forall i :: 0 <= i < |more| ==> !more[i].Sender?
    ensures Answered(env, was, run + more, hi, lo)
  {
    forall i | |was| <= i < |run + more| && (run + more)[i].Sender? ensures FromEnv(env, (run + more)[i].io, hi, lo) {
      assert FromEnv(env, run[i].io, hi, lo + 1);
    }
  }

  lemma {:induction false} PossibleIsForeign(ls: seq<Label>)
    ensures forall i :: 0 <= i < |Possible(ls)| ==> !Possible(ls)[i].Sender?
  {
    if ls != [] {
      PossibleIsForeign(ls[..|ls| - 1]);
    }
  }

  lemma {:induction false} ForeignOfPossible(run: seq<Label>, ls: seq<Label>)
    ensures Foreign(run + Possible(ls)) == Foreign(run) + Possible(ls)
  {
    if ls == [] {
      assert run + Possible(ls) == run;
    } else {
      var first, last := Possible(ls[..|ls| - 1]), ls[|ls| - 1];
      ForeignOfPossible(run, ls[..|ls| - 1]);
      if IsPossible(last) {
        assert run + Possible(ls) == run + first + [last];
        ForeignOne(run + first, last);
      } else {
        assert Possible(ls) == first;
      }
    }
  }

  lemma ForeignOne(run: seq<Label>, l: Label)
    ensures Foreign(run + [l]) == Foreign(run) + if l.Sender? then [] else [l]
  {
    assert (run + [l])[..|run|] == run;
  }

  lemma {:induction false} TurnsJoin(env: Env, hi: nat, mid: nat, lo: nat)
    requires lo <= mid <= hi
    ensures Turns(env, hi, lo) == Turns(env, hi, mid) + Turns(env, mid, lo)
    decreases mid - lo
  {
    if lo < mid {
      TurnsJoin(env, hi, mid, lo + 1);
    }
  }

  lemma Join(env: Env, a: seq<Label>, b: seq<Label>, c: seq<Label>, hi: nat, mid: nat, lo: nat)
    requires Scripted(env, a, b, hi, mid) && Scripted(env, b, c, mid, lo)
    ensures Scripted(env, a, c, hi, lo)
  {
    TurnsJoin(env, hi, mid, lo);
    assert Foreign(a) + Turns(env, hi, mid) + Turns(env, mid, lo)
           == Foreign(a) + (Turns(env, hi, mid) + Turns(env, mid, lo));
    forall i | |a| <= i < |c| && c[i].Sender? ensures FromEnv(env, c[i].io, hi, lo) {
      if i < |b| {
        assert FromEnv(env, b[i].io, hi, mid);
      } else {
        assert FromEnv(env, c[i].io, mid, lo);
      }
    }
  }

  lemma JoinSpent(env: Env, a: seq<Label>, b: seq<Label>, c: seq<Label>, hi: nat, mid: nat, lo: nat)
    requires Spent(env, a, b, hi, mid) && Spent(env, b, c, mid, lo)
    ensures Spent(env, a, c, hi, lo) && |c| - |a| == (|c| - |b|) + (|b| - |a|)
  {
    Join(env, a, b, c, hi, mid, lo);
  }

  // How a part of goSend was left.
  datatype Outcome = Continue | Stop | OutOfTime

  // The same place in goSend; only the timer of the message in hand may have fired.
  predicate SamePlace(p: SendPc, p': SendPc) {
    p' == p || (p.Woken? && p' == p.(hand := p.hand.(timeout := true)))
  }

  function Flatten(bufs: seq<Bytes>): Bytes {
    if bufs == [] then [] else Flatten(bufs[..|bufs| - 1]) + bufs[|bufs| - 1]
  }

  // Where goSend goes when it only moves on.
  function NextPlace(c: Config, s: State): SendPc {
    match s.snd
    case Ready => Top
    case Top => if s.msgShutdown then StopFlag(false) else Fetch(Max(0, c.cMulti - |s.q.list|), 0)
    case StopTest => if s.life.recvDown then Closing(TryClose) else Ended
    case _ => s.snd
  }

  // How one round of the fetch loop was left.
  datatype Fetched = More(inserted: nat) | Full(stop: bool) | Quit | Late

  class Session {
    const c: Config
    // msg_chan_, msg_send_list_, sending_, send_mtx_
    var chan: seq<Msg>
    var list: seq<Msg>
    var sending: bool
    var locked: bool
    // the message goSend has in hand, and msg_id_
    var hand: Msg
    var msgId: nat
    // initiative_shutdown_, send_shutdown_, recv_shutdown_, closed_, close_ec_
    var initiative: bool
    var sendDown: bool
    var recvDown: bool
    var closed: bool
    var closeEc: int
    // where goReceive is
    var rcv: RecvPc

    ghost var snd: SendPc
    ghost var msgShutdown: bool
    ghost var events: seq<Event>
    ghost var h: History
    ghost var past: seq<State>
    ghost var run: seq<Label>

    ghost function St(): State
      reads this
    {
      State(Queues(chan, list, sending), Life(initiative, sendDown, recvDown, closed, closeEc, events),
            snd, msgShutdown, rcv, h)
    }

    ghost predicate Valid()
      reads this
    {
      Consistent(c, past, run, St(), locked, msgId, hand)
    }

    constructor (config: Config)
      requires config.Valid()
      ensures Valid() && c == config && run == [] && St() == INIT
    {
      c := config;
      chan, list, sending, locked, hand, msgId := [], [], false, false, SHUTDOWN_MSG, 0;
      initiative, sendDown, recvDown, closed, closeEc := false, false, false, false, 0;
      rcv, snd, msgShutdown, events, h, past, run := RUnstarted, Unstarted, false, [], INIT.h, [], [];
    }

    // Writes a step into the record, after the fields have been changed accordingly.
    ghost method Record(l: Label, before: State)
      requires c.Valid() && Recorded(c, past, run, before) && Enabled(c, before, l) && St() == Step(c, before, l)
      requires locked == LockHeld(snd) && msgId == h.nextId && (snd.Woken? ==> hand == snd.hand)
      modifies this`run, this`past
      ensures Valid() && run == old(run) + [l]
    {
      RecordOne(c, past, run, before, l);
      past, run := past + [before], run + [l];
    }

    ghost method RecordSendNoDelay(buf: Bytes, raw: bool, written: int, before: State)
      requires c.Valid() && Recorded(c, past, run, before) && OthersMayRun(c, before) && written <= |buf|
      requires St() == StepSendNoDelay(c, before, buf, raw, written)
      requires locked == LockHeld(snd) && msgId == h.nextId && (snd.Woken? ==> hand == snd.hand)
      modifies this`run, this`past
      ensures Valid() && run == old(run) + [ApiSendNoDelay(buf, raw, written)]
    {
      Record(ApiSendNoDelay(buf, raw, written), before);
    }

    // ---------------------------------------------------------------- pieces

    method PushShutdown()
      modifies `chan
      ensures chan == if old(|chan|) < CHAN_CAP then old(chan) + [SHUTDOWN_MSG] else old(chan)
    {
      if |chan| < CHAN_CAP {
        chan := chan + [SHUTDOWN_MSG];
      }
    }

    // close_ec_mutex_ is never released, so only the first reason gets through.
    method SetCloseEc(ec: int)
      modifies `closeEc
      ensures closeEc == if old(closeEc) == 0 then ec else old(closeEc)
    {
      if closeEc == 0 {
        closeEc := ec;
      }
    }

    // ---------------------------------------------------------------- the user's calls

    method Send(buf: Bytes) returns (answer: Answer)
      requires Valid() && OthersMayRun(c, St())
      modifies this
      ensures Valid() && run == old(run) + [ApiSend(buf)]
      ensures locked == old(locked) && snd == old(snd) && msgShutdown == old(msgShutdown)
      ensures answer == Ok <==> buf == []
      ensures answer == Rejected <==> buf != [] && old(recvDown || sendDown || initiative)
      ensures answer == Overflow <==> buf != [] && !old(recvDown || sendDown || initiative) && old(|chan|) >= CHAN_CAP
      ensures answer == Queued ==>
                chan == old(chan) + [Msg(old(msgId), buf, 0, false, false, false)]
                && h.accepted == old(h.accepted)[old(msgId) := buf]
      ensures answer != Queued ==> chan == old(chan) && h.accepted == old(h.accepted)
      ensures list == old(list) && h.wire == old(h.wire) && h.log == old(h.log)
    {
      ghost var before := St();
      answer := SendPlain(buf, before);
      Record(ApiSend(buf), before);
    }

    // Both overloads; `raw` is the one that copies the unwritten tail, `written` what write returns.
    method SendNoDelay(buf: Bytes, raw: bool, written: int) returns (answer: Answer)
      requires Valid() && OthersMayRun(c, St()) && !c.guard && written <= |buf|
      modifies this
      ensures Valid() && run == old(run) + [ApiSendNoDelay(buf, raw, written)]
      ensures locked == old(locked) && snd == old(snd) && msgShutdown == old(msgShutdown)
      ensures answer == Ok <==> buf == [] || (old(WritesAtOnce(buf, written)) && written == |buf|)
      ensures answer == Rejected <==> buf != [] && old(recvDown || sendDown || initiative)
      ensures answer == Overflow <==>
                buf != [] && !old(recvDown || sendDown || initiative || WritesAtOnce(buf, written))
                && old(|chan|) >= CHAN_CAP
      ensures old(WritesAtOnce(buf, written)) ==>
                chan == old(chan) && h.wire == old(h.wire) + buf[..written]
                && h.accepted == old(h.accepted)[old(msgId) := buf]
      ensures old(WritesAtOnce(buf, written)) && written == |buf| ==>
                list == old(list) && h.log == old(h.log) + [Entry(old(msgId), Sent, |buf|)]
      ensures old(WritesAtOnce(buf, written)) && written < |buf| ==>
                sending && |list| == old(|list|) + 1 && list[1..] == old(list)
                && list[0].id == old(msgId) && list[0].Rest() == buf[written..] && list[0].sendHalf && !list[0].timeout
      ensures !old(WritesAtOnce(buf, written)) ==> list == old(list) && h.wire == old(h.wire) && h.log == old(h.log)
      ensures !old(WritesAtOnce(buf, written)) && answer == Queued ==>
                chan == old(chan) + [Msg(old(msgId), buf, 0, false, false, false)]
                && h.accepted == old(h.accepted)[old(msgId) := buf]
    {
      ghost var before := St();
      if WritesAtOnce(buf, written) {
        answer := SendAtOnce(buf, raw, written, before);
      } else {
        answer := SendPlain(buf, before);
      }
      RecordSendNoDelay(buf, raw, written, before);
    }

    // SendNoDelay may write, and the socket takes something.
    predicate WritesAtOnce(buf: Bytes, written: int)
      reads this
    {
      buf != [] && !recvDown && !sendDown && !initiative && !c.ssl && !locked && !sending && written > 0
    }

    // The part of Send and SendNoDelay that does not write.
    method SendPlain(buf: Bytes, ghost before: State) returns (answer: Answer)
      requires before == St() && msgId == h.nextId
      modifies `chan, `msgId, `h
      ensures St() == StepSend(before, buf) && msgId == h.nextId
      ensures answer == Ok <==> buf == []
      ensures answer == Queued ==>
                chan == old(chan) + [Msg(old(msgId), buf, 0, false, false, false)]
                && h.accepted == old(h.accepted)[old(msgId) := buf]
      ensures answer != Queued ==> chan == old(chan) && h == old(h)
      ensures h.wire == old(h.wire) && h.log == old(h.log)
      ensures answer == Rejected <==> buf != [] && Rejecting(before.life)
      ensures answer == Overflow <==> buf != [] && !Rejecting(before.life) && old(|chan|) >= CHAN_CAP
    {
      if buf == [] {
        answer := Ok;
      } else if recvDown || sendDown || initiative {
        answer := Rejected;
      } else if |chan| >= CHAN_CAP {
        answer := Overflow;
      } else {
        answer := Queued;
        chan := chan + [Msg(msgId, buf, 0, false, false, false)];
        msgId := msgId + 1;
        h := Accept(h, buf).(queued := h.queued + {h.nextId});
      }
    }

    // The part of SendNoDelay after a write that has taken `written` bytes.
    method SendAtOnce(buf: Bytes, raw: bool, written: nat, ghost before: State) returns (answer: Answer)
      requires before == St() && msgId == h.nextId && written <= |buf|
      modifies `list, `sending, `msgId, `h
      ensures St() == WriteNow(before, buf, raw, written) && msgId == h.nextId
      ensures answer == if written == |buf| then Ok else Queued
      ensures h.accepted == old(h.accepted)[old(msgId) := buf]
      ensures written > 0 ==> h.wire == old(h.wire) + buf[..written]
      ensures written == |buf| ==> list == old(list) && h.log == old(h.log) + [Entry(old(msgId), Sent, |buf|)]
      ensures written < |buf| ==>
                sending && |list| == old(|list|) + 1 && list[1..] == old(list)
                && list[0].id == old(msgId) && list[0].Rest() == buf[written..] && list[0].sendHalf && !list[0].timeout
    {
      if written >= |buf| {
        answer := Ok;
      } else {
        answer := Queued;
        list := [HalfSent(msgId, buf, raw, written)] + list;
        sending := true;
      }
      msgId := msgId + 1;
      h := WriteNow(before, buf, raw, written).h;
    }

    method Shutdown()
      requires Valid() && OthersMayRun(c, St())
      modifies this
      ensures Valid() && run == old(run) + [ApiShutdown]
      ensures locked == old(locked) && snd == old(snd) && msgShutdown == old(msgShutdown)
      ensures initiative && closeEc == if old(closeEc) != 0 then old(closeEc) else 3
      ensures if old(|chan|) < CHAN_CAP then chan == old(chan) + [SHUTDOWN_MSG] else chan == old(chan)
    {
      ghost var before := St();
      AskToStop(before);
      Record(ApiShutdown, before);
    }

    method AskToStop(ghost before: State)
      requires before == St()
      modifies `closeEc, `initiative, `chan
      ensures St() == StepShutdown(before) && initiative
      ensures closeEc == if old(closeEc) != 0 then old(closeEc) else 3
      ensures if old(|chan|) < CHAN_CAP then chan == old(chan) + [SHUTDOWN_MSG] else chan == old(chan)
    {
      SetCloseEc(EC_SHUTDOWN);
      initiative := true;
      PushShutdown();
    }

    // goStart: calls the connect callback and dispatches both coroutines.
    method GoStart()
      requires Valid() && rcv == RUnstarted
      modifies this
      ensures Valid() && run == old(run) + [Start] && snd == Ready && rcv == Reading
    {
      NotStarted();
      ghost var before := St();
      Dispatch(before);
      Record(Start, before);
    }

    method Dispatch(ghost before: State)
      requires before == St()
      modifies `rcv, `snd, `events
      ensures St() == StepStart(before) && snd == Ready && rcv == Reading
    {
      events := events + [Connected];
      rcv, snd := Reading, Ready;
    }

    // Both coroutines are started at once.
    lemma NotStarted()
      requires Valid() && rcv == RUnstarted
      ensures snd == Unstarted && !locked
    {
      RecordedReaches(c, past, run, St());
      Close.InvReachable(c, run, St());
    }

    // ---------------------------------------------------------------- the other actors

    // The timer of message `id`.
    method FireTimer(id: nat)
      requires Valid() && OthersMayRun(c, St())
      modifies this
      ensures Valid() && run == old(run) + [Timer(id)]
      ensures locked == old(locked) && SamePlace(old(snd), snd) && msgShutdown == old(msgShutdown)
      ensures |chan| == old(|chan|) && forall i :: 0 <= i < |chan| ==>
                if old(chan)[i].id == id && !old(chan)[i].shutdown
                then chan[i].timeout && chan[i].(timeout := old(chan)[i].timeout) == old(chan)[i]
                else chan[i] == old(chan)[i]
      ensures |list| == old(|list|) && forall i :: 0 <= i < |list| ==>
                if old(list)[i].id == id && !old(list)[i].shutdown
                then list[i].timeout && list[i].(timeout := old(list)[i].timeout) == old(list)[i]
                else list[i] == old(list)[i]
      ensures if old(hand).id == id && !old(hand).shutdown
              then hand.timeout && hand.(timeout := old(hand).timeout) == old(hand)
              else hand == old(hand)
    {
      ghost var before := St();
      SetTimeouts(id, before);
      Record(Timer(id), before);
    }

    method SetTimeouts(id: nat, ghost before: State)
      requires before == St() && (snd.Woken? ==> hand == snd.hand)
      modifies `chan, `list, `hand, `snd
      ensures St() == StepTimer(before, id) && (snd.Woken? ==> hand == snd.hand)
      ensures chan == SetTimeout(old(chan), id) && list == SetTimeout(old(list), id) && hand == TimeoutOne(old(hand), id)
    {
      chan := SetTimeout(chan, id);
      list := SetTimeout(list, id);
      hand := TimeoutOne(hand, id);
      snd := if snd.Woken? then snd.(hand := hand) else snd;
    }

    // One step of OnClose, run by goReceive.
    method CloseStep(at: ClosePc, ghost before: State) returns (next: Option<ClosePc>)
      requires before == St()
      modifies `chan, `list, `closed, `h, `events
      ensures St() == StepClose(before, at, snd, rcv) && next == NextClose(before, at)
      ensures at.TryClose? ==> closed && next == if old(closed) then None else Some(DrainChan)
      ensures at.DrainChan? ==>
                if old(chan) == [] then next == Some(DrainList) else next == Some(DrainChan) && chan == old(chan)[1..]
      ensures at.DrainList? ==>
                if old(list) == [] then next == Some(Disconnecting) else next == Some(DrainList) && list == old(list)[1..]
      ensures at.Disconnecting? ==> next == None && events == old(events) + [Disconnected(closeEc)]
      ensures h.nextId == before.h.nextId
    {
      h := CloseHistory(h, before.q, at);
      match at
      case TryClose =>
        next := if closed then None else Some(DrainChan);
        closed := true;
      case DrainChan =>
        if chan == [] {
          next := Some(DrainList);
        } else {
          chan, next := chan[1..], Some(DrainChan);
        }
      case DrainList =>
        if list == [] {
          next := Some(Disconnecting);
        } else {
          list, next := list[1..], Some(DrainList);
        }
      case Disconnecting =>
        next := None;
        events := events + [Disconnected(closeEc)];
    }

    // One step of goReceive.
    method ReceiverStep(io: Io)
      requires Valid() && OthersMayRun(c, St()) && IoOk(St(), io)
      modifies this
      ensures Valid() && run == old(run) + [Receiver(io)]
      ensures locked == old(locked) && snd == old(snd) && msgShutdown == old(msgShutdown)
      ensures old(rcv).Reading? ==> ReadAs(io, old(closeEc), old(events))
      ensures old(rcv).RFlag? ==> recvDown && rcv == RTest
      ensures old(rcv).RTest? ==> rcv == if sendDown then RClosing(TryClose) else RPush
      ensures old(rcv).RPush? ==>
                rcv == REnded && if old(|chan|) < CHAN_CAP then chan == old(chan) + [SHUTDOWN_MSG] else chan == old(chan)
    {
      ghost var before := St();
      Receive(io, before);
      RecordReceiver(io, before);
    }

    // What a read leads to: data is delivered, an error becomes the close reason unless there is one.
    ghost predicate ReadAs(io: Io, ecBefore: int, eventsBefore: seq<Event>)
      reads this
    {
      match io
      case Data => rcv == Reading && closeEc == ecBefore && events == eventsBefore + [Received]
      case Failed(ec) =>
        rcv == RFlag && closeEc == (if ecBefore != 0 then ecBefore else ec) && events == eventsBefore
      case _ => rcv == Reading && closeEc == ecBefore && events == eventsBefore
    }

    method Receive(io: Io, ghost before: State)
      requires before == St()
      modifies `chan, `list, `recvDown, `closed, `closeEc, `h, `events, `rcv
      ensures St() == StepReceiver(before, io) && h.nextId == before.h.nextId
      ensures old(rcv).Reading? ==> ReadAs(io, old(closeEc), old(events))
      ensures old(rcv).RFlag? ==> recvDown && rcv == RTest
      ensures old(rcv).RTest? ==> rcv == if sendDown then RClosing(TryClose) else RPush
      ensures old(rcv).RPush? ==>
                rcv == REnded && if old(|chan|) < CHAN_CAP then chan == old(chan) + [SHUTDOWN_MSG] else chan == old(chan)
    {
      match rcv
      case Reading => Read(io, before);
      case RClosing(at) => CloseByReceiver(at, io, before);
      case _ => ShutdownRecvStep(io, before);
    }

    // One call of read_some.
    method Read(io: Io, ghost before: State)
      requires before == St() && rcv.Reading?
      modifies `closeEc, `rcv, `events
      ensures St() == StepReceiver(before, io) && ReadAs(io, old(closeEc), old(events))
    {
      if io.Data? {
        events := events + [Received];
      } else if io.Failed? {
        SetCloseEc(io.ec);
        rcv := RFlag;
      }
    }

    method CloseByReceiver(at: ClosePc, io: Io, ghost before: State)
      requires before == St() && rcv == RClosing(at)
      modifies `chan, `list, `closed, `h, `events, `rcv
      ensures St() == StepReceiver(before, io) && h.nextId == before.h.nextId
    {
      var next := CloseStep(at, before);
      rcv := ReceiverAt(next);
    }

    // ShutdownRecv: set the flag, then test the other one, then close or tell the sender.
    method ShutdownRecvStep(io: Io, ghost before: State)
      requires before == St() && !rcv.Reading? && !rcv.RClosing?
      modifies `recvDown, `rcv, `chan
      ensures St() == StepReceiver(before, io)
      ensures old(rcv).RFlag? ==> recvDown && rcv == RTest
      ensures old(rcv).RTest? ==> rcv == if sendDown then RClosing(TryClose) else RPush
      ensures old(rcv).RPush? ==>
                rcv == REnded && if old(|chan|) < CHAN_CAP then chan == old(chan) + [SHUTDOWN_MSG] else chan == old(chan)
    {
      match rcv
      case RFlag => recvDown, rcv := true, RTest;
      case RTest => rcv := if sendDown then RClosing(TryClose) else RPush;
      case RPush =>
        PushShutdown();
        rcv := REnded;
      case _ =>
    }

    ghost method RecordReceiver(io: Io, before: State)
      requires c.Valid() && Recorded(c, past, run, before) && OthersMayRun(c, before) && IoOk(before, io)
      requires St() == StepReceiver(before, io)
      requires locked == LockHeld(snd) && msgId == h.nextId && (snd.Woken? ==> hand == snd.hand)
      modifies this`run, this`past
      ensures Valid() && run == old(run) + [Receiver(io)]
    {
      Record(Receiver(io), before);
    }

    // The other actors take the steps they can of `ls`.
    method Others(ls: seq<Label>)
      requires Valid() && !snd.Top? && !c.guard
      modifies this
      ensures Valid() && run == old(run) + Possible(ls)
      ensures locked == old(locked) && SamePlace(old(snd), snd) && msgShutdown == old(msgShutdown)
    {
      for i := 0 to |ls|
        invariant Valid() && run == old(run) + Possible(ls[..i])
        invariant locked == old(locked) && SamePlace(old(snd), snd) && msgShutdown == old(msgShutdown)
      {
        if IsPossible(ls[i]) {
          Other(ls[i]);
        }
        assert ls[..i + 1][..i] == ls[..i];
      }
      assert ls[..|ls|] == ls;
    }

    // The turn of the other actors, when the clock has come down to `clock`.
    method LetOthers(env: Env, clock: nat, ghost was: seq<Label>, ghost hi: nat)
      requires Valid() && !snd.Top? && !c.guard && Scripted(env, was, run, hi, clock + 1)
      modifies this
      ensures Valid() && Scripted(env, was, run, hi, clock) && old(run) <= run
      ensures locked == old(locked) && SamePlace(old(snd), snd) && msgShutdown == old(msgShutdown)
    {
      OthersTurn(env, was, run, hi, clock);
      Others(env.others(clock));
    }

    method Other(l: Label)
      requires Valid() && OthersMayRun(c, St()) && !c.guard && IsPossible(l)
      modifies this
      ensures Valid() && run == old(run) + [l]
      ensures locked == old(locked) && SamePlace(old(snd), snd) && msgShutdown == old(msgShutdown)
    {
      match l
      case ApiSend(bytes) => var _ := Send(bytes);
      case ApiSendNoDelay(bytes, raw, written) => var _ := SendNoDelay(bytes, raw, written);
      case ApiShutdown => Shutdown();
      case Timer(id) => FireTimer(id);
      case Receiver(io) => ReceiverStep(io);
    }

    // ---------------------------------------------------------------- goSend

    ghost method RecordSender(io: Io, before: State)
      requires c.Valid() && Recorded(c, past, run, before) && IoOk(before, io)
      requires St() == StepSender(c, before, io)
      requires locked == LockHeld(snd) && msgId == h.nextId && (snd.Woken? ==> hand == snd.hand)
      modifies this`run, this`past
      ensures Valid() && run == old(run) + [Sender(io)]
    {
      Record(Sender(io), before);
    }

    // Steps of goSend that only move on; `locked` is already as it has to be.
    ghost method Move(p: SendPc)
      requires c.Valid() && Recorded(c, past, run, St()) && p == NextPlace(c, St())
      requires snd.Ready? || snd.Top? || snd.StopTest?
      requires locked == LockHeld(p) && msgId == h.nextId
      modifies this`snd, this`run, this`past
      ensures Valid() && snd == p && run == old(run) + [Sender(Data)]
    {
      var before := St();
      snd := p;
      RecordSender(Data, before);
    }

    ghost method MoveFetch(remain: nat, inserted: nat, p: SendPc)
      requires c.Valid() && Recorded(c, past, run, St()) && snd == Fetch(remain, inserted)
      requires StepFetch(c, St(), remain, inserted) == St().(snd := p)
      requires locked == LockHeld(p) && msgId == h.nextId && !p.Woken?
      modifies this`snd, this`run, this`past
      ensures Valid() && snd == p && run == old(run) + [Sender(Data)]
    {
      var before := St();
      snd := p;
      RecordSender(Data, before);
    }

    ghost method MoveGather(p: SendPc)
      requires c.Valid() && Recorded(c, past, run, St()) && snd.Gather?
      requires StepGather(c, St(), snd.cap, snd.k, snd.bytes) == St().(snd := p)
      requires locked == LockHeld(p) && msgId == h.nextId && !p.Woken?
      modifies this`snd, this`run, this`past
      ensures Valid() && snd == p && run == old(run) + [Sender(Data)]
    {
      var before := St();
      snd := p;
      RecordSender(Data, before);
    }

    // ... in answer to writev,
    ghost method MoveWrite(p: SendPc, io: Io)
      requires c.Valid() && Recorded(c, past, run, St()) && IoOk(St(), io) && snd.Write?
      requires StepWrite(St(), snd.k, snd.bytes, io) == St().(snd := p)
      requires locked == LockHeld(p) && msgId == h.nextId && !p.Woken?
      modifies this`snd, this`run, this`past
      ensures Valid() && snd == p && run == old(run) + [Sender(io)]
    {
      var before := St();
      assert StepSender(c, before, io) == StepWrite(before, snd.k, snd.bytes, io);
      snd := p;
      assert St() == before.(snd := p);
      RecordSender(io, before);
    }

    // ... or to poll.
    ghost method MovePoll(p: SendPc, io: Io)
      requires c.Valid() && Recorded(c, past, run, St()) && IoOk(St(), io) && snd.Poll?
      requires StepPoll(St(), snd.k, snd.bytes, io) == St().(snd := p)
      requires locked == LockHeld(p) && msgId == h.nextId && !p.Woken?
      modifies this`snd, this`run, this`past
      ensures Valid() && snd == p && run == old(run) + [Sender(io)]
    {
      var before := St();
      assert StepSender(c, before, io) == StepPoll(before, snd.k, snd.bytes, io);
      snd := p;
      assert St() == before.(snd := p);
      RecordSender(io, before);
    }

    ghost method RecordRetire(before: State)
      requires c.Valid() && Recorded(c, past, run, before) && before.snd.Retire?
      requires St() == StepRetire(before, before.snd.n)
      requires locked == LockHeld(snd) && msgId == h.nextId
      modifies this`run, this`past
      ensures Valid() && run == old(run) + [Sender(Data)]
    {
      RecordSender(Data, before);
    }

    // ---- taking messages out of the channel

    // What is done with the message in hand.
    method Take(remain: nat, inserted: nat, ghost before: State, ghost q: Queues)
      returns (stop: bool, inserted': nat)
      requires St() == before.(q := q)
      modifies `list, `snd, `msgShutdown, `h
      ensures St() == Classify(c, before, q, hand, remain, inserted) && h.nextId == before.h.nextId
      ensures stop == hand.shutdown && inserted' == if hand.shutdown || hand.timeout then inserted else inserted + 1
      ensures LockHeld(snd)
      ensures list == if hand.shutdown || hand.timeout then old(list) else old(list) + [hand]
    {
      stop, inserted' := hand.shutdown, inserted;
      if hand.shutdown {
        msgShutdown := true;
        snd := StartGather(c, q);
      } else if hand.timeout {
        h := Done(h, hand, TimedOut, 0);
        snd := Fetch(remain, inserted);
      } else {
        inserted' := inserted + 1;
        list := list + [hand];
        snd := Fetch(remain, inserted + 1);
      }
    }

    // A message that is there.
    method TakeNext(remain: nat, inserted: nat) returns (stop: bool, inserted': nat)
      requires Valid() && snd == Fetch(remain, inserted) && inserted < remain && chan != [] && !msgShutdown
      modifies this
      ensures Valid() && run == old(run) + [Sender(Data)] && Taken(stop, remain, inserted') && inserted' <= remain
    {
      ghost var before := St();
      hand := chan[0];
      chan := chan[1..];
      ghost var q := before.q.(chan := chan);
      stop, inserted' := Take(remain, inserted, before, q);
      RecordFetch(remain, inserted, before);
    }

    ghost method RecordFetch(remain: nat, inserted: nat, before: State)
      requires c.Valid() && Recorded(c, past, run, before) && before.snd == Fetch(remain, inserted)
      requires St() == StepFetch(c, before, remain, inserted)
      requires locked == LockHeld(snd) && msgId == h.nextId && !snd.Woken?
      modifies this`run, this`past
      ensures Valid() && run == old(run) + [Sender(Data)]
    {
      RecordSender(Data, before);
    }

    // Blocks on the channel until there is a message.
    method WaitForMessage(env: Env, budget: nat, remain: nat, inserted: nat) returns (clock: nat)
      requires Valid() && snd == Parked(remain, inserted) && !c.guard
      modifies this
      ensures Valid() && Spent(env, old(run), run, budget, clock) && (clock > 0 ==> chan != [])
      ensures snd == Parked(remain, inserted) && msgShutdown == old(msgShutdown)
    {
      clock := budget;
      NothingYet(env, run, budget);
      while clock > 0 && chan == []
        invariant Valid() && Spent(env, old(run), run, budget, clock)
        invariant snd == Parked(remain, inserted) && msgShutdown == old(msgShutdown)
      {
        clock := clock - 1;
        OwnStep(env, old(run), run, budget, clock + 1, Data);
        RecordSender(Data, St());
        LetOthers(env, clock, old(run), budget);
      }
    }

    // Nothing to do: clears `sending_` and gives the lock back.
    method GiveWay(remain: nat, inserted: nat)
      requires Valid() && snd == Fetch(remain, inserted) && inserted < remain
      requires chan == [] && list == [] && !initiative
      modifies this
      ensures Valid() && run == old(run) + [Sender(Data)]
      ensures snd == Parked(remain, inserted) && msgShutdown == old(msgShutdown) && !sending && !locked
    {
      ghost var before := St();
      sending, locked := false, false;
      snd := Parked(remain, inserted);
      RecordFetch(remain, inserted, before);
    }

    // Waits for a message and takes it.
    method Sleep(env: Env, budget: nat, remain: nat, inserted: nat) returns (clock: nat, f: Fetched)
      requires Valid() && snd == Parked(remain, inserted) && inserted < remain && !msgShutdown && !c.guard
      modifies this
      ensures Valid() && Spent(env, old(run), run, budget, clock) && FetchedOk(f, remain)
      ensures f.Late? ==> clock == 0
    {
      clock := WaitForMessage(env, budget, remain, inserted);
      if clock == 0 {
        f := Late;
      } else {
        ghost var mid, from := run, clock;
        clock := clock - 1;
        f := WakeUp(env, clock, remain, inserted);
        JoinSpent(env, old(run), mid, run, budget, from, clock);
      }
    }

    // Takes the message, and waits for the lock.
    method WakeUp(env: Env, clock: nat, remain: nat, inserted: nat) returns (f: Fetched)
      requires Valid() && snd == Parked(remain, inserted) && inserted < remain && !msgShutdown && !c.guard && chan != []
      modifies this
      ensures Valid() && Spent(env, old(run), run, clock + 1, clock) && FetchedOk(f, remain) && !f.Late?
    {
      NothingYet(env, run, clock + 1);
      OwnStep(env, run, run, clock + 1, clock + 1, Data);
      Wake(remain, inserted);
      LetOthers(env, clock, old(run), clock + 1);
      OwnStep(env, old(run), run, clock + 1, clock, Data);
      var stop, inserted' := TakeWoken(remain, inserted);
      f := if stop then Full(true) else More(inserted');
    }

    // A message has been taken: goSend stays in its fetch loop, or leaves it for a shutdown message.
    ghost predicate Taken(stop: bool, remain: nat, inserted: nat)
      reads this
    {
      stop == msgShutdown && snd == if stop then StartGather(c, St().q) else Fetch(remain, inserted)
    }

    method Wake(remain: nat, inserted: nat)
      requires Valid() && snd == Parked(remain, inserted) && chan != []
      modifies this
      ensures Valid() && run == old(run) + [Sender(Data)] && msgShutdown == old(msgShutdown)
      ensures snd == Woken(hand, remain, inserted)
    {
      ghost var before := St();
      PickUp(remain, inserted, before);
      RecordSender(Data, before);
    }

    method PickUp(remain: nat, inserted: nat, ghost before: State)
      requires before == St() && snd == Parked(remain, inserted) && chan != []
      modifies `hand, `chan, `snd
      ensures St() == StepSender(c, before, Data) && snd == Woken(hand, remain, inserted)
    {
      hand, chan := chan[0], chan[1..];
      snd := Woken(hand, remain, inserted);
    }

    // The message the channel has handed over, once the lock has been retaken.
    method TakeWoken(remain: nat, inserted: nat) returns (stop: bool, inserted': nat)
      requires Valid() && snd == Woken(hand, remain, inserted) && inserted < remain && !msgShutdown
      modifies this
      ensures Valid() && run == old(run) + [Sender(Data)] && Taken(stop, remain, inserted') && inserted' <= remain
    {
      ghost var before := St();
      locked := true;
      stop, inserted' := Take(remain, inserted, before, before.q);
      RecordSender(Data, before);
    }

    ghost predicate FetchedOk(f: Fetched, remain: nat)
      reads this
    {
      match f
      case More(inserted) => snd == Fetch(remain, inserted) && inserted <= remain && !msgShutdown
      case Full(stop) => snd == StartGather(c, St().q) && stop == msgShutdown
      case Quit => snd == StopFlag(true)
      case Late => true
    }

    // One round of the fetch loop.
    method FetchOne(env: Env, budget: nat, remain: nat, inserted: nat) returns (clock: nat, f: Fetched)
      requires Valid() && snd == Fetch(remain, inserted) && inserted <= remain && !msgShutdown && !c.guard
      modifies this
      ensures Valid() && Spent(env, old(run), run, budget, clock) && FetchedOk(f, remain)
      ensures |run| - |old(run)| > budget - clock && (f.Late? ==> clock == 0)
    {
      clock := budget;
      NothingYet(env, run, budget);
      OwnStep(env, run, run, budget, budget, Data);
      if inserted < remain && chan != [] {
        var stop, inserted' := TakeNext(remain, inserted);
        f := if stop then Full(true) else More(inserted');
      } else if inserted == remain || list != [] {
        MoveFetch(remain, inserted, StartGather(c, St().q));
        f := Full(false);
      } else if initiative {
        MoveFetch(remain, inserted, StopFlag(true));
        f := Quit;
      } else {
        GiveWay(remain, inserted);
        ghost var mid := run;
        clock, f := Sleep(env, budget, remain, inserted);
        JoinSpent(env, old(run), mid, run, budget, budget, clock);
      }
    }

    method FetchTurn(env: Env, budget: nat, remain: nat, inserted: nat) returns (clock: nat, f: Fetched)
      requires Valid() && snd == Fetch(remain, inserted) && inserted <= remain && !msgShutdown && !c.guard
      requires budget > 0
      modifies this
      ensures Valid() && Spent(env, old(run), run, budget, clock) && FetchedOk(f, remain)
      ensures clock < budget && (f.Late? ==> clock == 0)
    {
      NothingYet(env, run, budget);
      LetOthers(env, budget - 1, old(run), budget);
      ghost var mid := run;
      clock, f := FetchOne(env, budget - 1, remain, inserted);
      Join(env, old(run), mid, run, budget, budget - 1, clock);
    }

    // The loop that empties the channel into the send list.
    method FetchLoop(env: Env, budget: nat, remain: nat) returns (clock: nat, f: Fetched)
      requires Valid() && snd == Fetch(remain, 0) && !msgShutdown && !c.guard
      modifies this
      ensures Valid() && Spent(env, old(run), run, budget, clock) && FetchedOk(f, remain) && !f.More?
      ensures f.Late? ==> clock == 0
    {
      clock, f := budget, More(0);
      NothingYet(env, run, budget);
      while clock > 0 && f.More?
        invariant Valid() && Spent(env, old(run), run, budget, clock) && FetchedOk(f, remain)
        invariant f.Late? ==> clock == 0
        decreases clock
      {
        ghost var mid, from := run, clock;
        clock, f := FetchTurn(env, clock, remain, f.inserted);
        JoinSpent(env, old(run), mid, run, budget, from, clock);
      }
      f := if f.More? then Late else f;
    }

    // ---- gathering buffers

    // Drops a message that has timed out before any of it was sent.
    method DropTimedOut(k: nat)
      requires Valid() && snd.Gather? && snd.k == k < |list| && list[k].timeout && !list[k].sendHalf
      modifies this
      ensures Valid() && run == old(run) + [Sender(Data)] && snd == old(snd) && msgShutdown == old(msgShutdown)
      ensures list == old(list)[..k] + old(list)[k + 1..] && h.wire == old(h.wire)
    {
      ghost var before := St();
      h := Done(h, list[k], TimedOut, 0);
      list := list[..k] + list[k + 1..];
      RecordGather(before);
    }

    ghost method RecordGather(before: State)
      requires c.Valid() && Recorded(c, past, run, before) && before.snd.Gather?
      requires St() == StepGather(c, before, before.snd.cap, before.snd.k, before.snd.bytes)
      requires locked == LockHeld(snd) && msgId == h.nextId && !snd.Woken?
      modifies this`run, this`past
      ensures Valid() && run == old(run) + [Sender(Data)]
    {
      RecordSender(Data, before);
    }

    // The next buffer is in range.
    lemma RoomForNext(k: nat)
      requires Valid() && snd.Gather? && snd.k == k < |list| && k < c.cMulti
      ensures k < snd.cap
    {
      RecordedReaches(c, past, run, St());
      GoodReachable(c, run, St());
    }

    // One round of the loop that fills the buffers.
    method GatherOne(env: Env, clock: nat, buffers: array<Bytes>, k: nat) returns (k': nat)
      requires Valid() && !c.guard && MoreToGather(k)
      requires k <= buffers.Length && snd == Gather(buffers.Length, k, Flatten(buffers[..k]))
      modifies this, buffers
      ensures Valid() && Spent(env, old(run), run, clock + 1, clock) && msgShutdown == old(msgShutdown)
      ensures k' <= buffers.Length && snd == Gather(buffers.Length, k', Flatten(buffers[..k']))
    {
      k' := k;
      NothingYet(env, run, clock + 1);
      OwnStep(env, run, run, clock + 1, clock + 1, Data);
      if list[k].timeout && !list[k].sendHalf {
        DropTimedOut(k);
      } else {
        FillBuffer(buffers, k);
        k' := k + 1;
      }
      LetOthers(env, clock, old(run), clock + 1);
    }

    // The loop that fills the buffers; leaves with what there is to write.
    method GatherLoop(env: Env, budget: nat, buffers: array<Bytes>) returns (clock: nat, k: nat, outcome: Outcome)
      requires Valid() && !c.guard && Wire.Safe(c) && snd == Gather(buffers.Length, 0, [])
      modifies this, buffers
      ensures Valid() && Spent(env, old(run), run, budget, clock) && msgShutdown == old(msgShutdown) && !outcome.Stop?
      ensures k <= buffers.Length && (outcome.OutOfTime? ==> clock == 0)
      ensures outcome.Continue? ==> snd == if k == 0 then Top else Write(k, Flatten(buffers[..k]))
      ensures outcome.Continue? && k > 0 ==> k <= |list| && Flatten(buffers[..k]) == Wire.RestBytes(list[..k])
    {
      clock, k, outcome := budget, 0, Continue;
      NothingYet(env, run, budget);
      while clock > 0 && MoreToGather(k)
        invariant Valid() && Spent(env, old(run), run, budget, clock) && msgShutdown == old(msgShutdown)
        invariant k <= buffers.Length && snd == Gather(buffers.Length, k, Flatten(buffers[..k]))
        decreases clock
      {
        clock := clock - 1;
        ghost var mid := run;
        k := GatherOne(env, clock, buffers, k);
        JoinSpent(env, old(run), mid, run, budget, clock + 1, clock);
      }
      if MoreToGather(k) {
        outcome := OutOfTime;
      } else {
        OwnStep(env, old(run), run, budget, clock, Data);
        LeaveGather(k, Flatten(buffers[..k]));
        BatchIsFront();
      }
    }

    // What is about to be written is what the first messages of the list have left.
    lemma BatchIsFront()
      requires Valid() && Wire.Safe(c)
      ensures snd.Write? ==> snd.k <= |list| && snd.bytes == Wire.RestBytes(list[..snd.k])
    {
      RecordedReaches(c, past, run, St());
      WireReachable(c, run, St());
    }

    predicate MoreToGather(k: nat)
      reads this
    {
      k < |list| && (k < c.cMulti || (list[k].timeout && !list[k].sendHalf))
    }

    method LeaveGather(k: nat, ghost bytes: Bytes)
      requires Valid() && snd.Gather? && snd.k == k && snd.bytes == bytes && !MoreToGather(k)
      modifies this
      ensures Valid() && run == old(run) + [Sender(Data)] && msgShutdown == old(msgShutdown)
      ensures snd == if k == 0 then Top else Write(k, bytes)
    {
      locked := k != 0;
      MoveGather(if k == 0 then Top else Write(k, bytes));
    }

    method FillBuffer(buffers: array<Bytes>, k: nat)
      requires Valid() && k < |list| && k < c.cMulti && !(list[k].timeout && !list[k].sendHalf)
      requires k <= buffers.Length && snd == Gather(buffers.Length, k, Flatten(buffers[..k]))
      modifies buffers, this`snd, this`run, this`past
      ensures Valid() && run == old(run) + [Sender(Data)]
      ensures k < buffers.Length && snd == Gather(buffers.Length, k + 1, Flatten(buffers[..k + 1]))
    {
      RoomForNext(k);
      buffers[k] := list[k].Rest();
      assert buffers[..k + 1][..k] == buffers[..k];
      assert Flatten(buffers[..k + 1]) == old(Flatten(buffers[..k])) + list[k].Rest();
      MoveGather(Gather(buffers.Length, k + 1, Flatten(buffers[..k + 1])));
    }

    // ---- writing

    // One writev that has taken n bytes.
    method Written(n: nat)
      requires Valid() && snd.Write? && n <= |snd.bytes|
      modifies this
      ensures Valid() && run == old(run) + [Sender(Wrote(n))] && snd == Retire(n) && msgShutdown == old(msgShutdown)
      ensures h.wire == old(h.wire) + old(snd.bytes)[..n] && list == old(list)
    {
      ghost var before := St();
      h := h.(wire := h.wire + snd.bytes[..n]);
      snd := Retire(n);
      RecordSender(Wrote(n), before);
    }

    // A writev or poll that has failed.
    method WriteFailed(ec: int)
      requires Valid() && (snd.Write? || snd.Poll?) && ec != 0
      modifies this
      ensures Valid() && run == old(run) + [Sender(Failed(ec))] && snd == StopFlag(true)
      ensures msgShutdown == old(msgShutdown) && closeEc == if old(closeEc) != 0 then old(closeEc) else ec
    {
      ghost var before := St();
      GiveUp(ec, before);
      RecordSender(Failed(ec), before);
    }

    method GiveUp(ec: int, ghost before: State)
      requires before == St() && (snd.Write? || snd.Poll?)
      modifies `closeEc, `snd
      ensures St() == StepSender(c, before, Failed(ec)) && snd == StopFlag(true)
      ensures closeEc == if old(closeEc) != 0 then old(closeEc) else ec
    {
      SetCloseEc(ec);
      snd := StopFlag(true);
    }

    // The socket is not writable: goSend polls, unless it is about to stop.
    method NotWritable(stop: bool) returns (polling: bool)
      requires Valid() && snd.Write? && stop == msgShutdown
      modifies this
      ensures Valid() && run == old(run) + [Sender(Again)] && msgShutdown == old(msgShutdown)
      ensures polling == !stop && snd == if stop then Retire(0) else Poll(old(snd.k), old(snd.bytes))
    {
      polling := !stop;
      MoveWrite(if stop then Retire(0) else Poll(snd.k, snd.bytes), Again);
    }

    // The wait for the socket is over.
    method Polled(writable: bool)
      requires Valid() && snd.Poll?
      modifies this
      ensures Valid() && run == old(run) + [Sender(if writable then Again else Expired)]
      ensures msgShutdown == old(msgShutdown)
      ensures snd == if writable then Write(old(snd.k), old(snd.bytes)) else Retire(0)
    {
      if writable {
        MovePoll(Write(snd.k, snd.bytes), Again);
      } else {
        MovePoll(Retire(0), Expired);
      }
    }

    // Where writev and poll leave goSend.
    ghost predicate WriteState(n: nat, polling: bool, outcome: Outcome, k: nat, bytes: Bytes)
      reads this
    {
      match outcome
      case Continue => snd == Retire(n)
      case Stop => snd == StopFlag(true)
      case OutOfTime => snd == if polling then Poll(k, bytes) else Write(k, bytes)
    }

    // What writev answers.
    method OnWritev(io: Io, stop: bool, size: nat) returns (n: nat, polling: bool, outcome: Outcome, ghost used: Io)
      requires Valid() && snd.Write? && size == |snd.bytes| && stop == msgShutdown
      modifies this
      ensures Valid() && run == old(run) + [Sender(used)] && (used == io || used == Interrupted)
      ensures msgShutdown == old(msgShutdown)
      ensures WriteState(n, polling, outcome, old(snd.k), old(snd.bytes))
    {
      n, polling, outcome, used := 0, false, OutOfTime, io;
      if io.Wrote? && io.n <= size {
        Written(io.n);
        n, outcome := io.n, Continue;
      } else if io.Again? {
        polling := NotWritable(stop);
        outcome := if stop then Continue else OutOfTime;
      } else if io.Failed? && io.ec != 0 {
        WriteFailed(io.ec);
        outcome := Stop;
      } else {
        used := Interrupted;
        RecordSender(Interrupted, St());
      }
    }

    // What poll answers.
    method OnPoll(io: Io) returns (polling: bool, outcome: Outcome, ghost used: Io)
      requires Valid() && snd.Poll?
      modifies this
      ensures Valid() && run == old(run) + [Sender(used)] && (used == io || used == Interrupted)
      ensures msgShutdown == old(msgShutdown)
      ensures WriteState(0, polling, outcome, old(snd.k), old(snd.bytes))
    {
      polling, outcome, used := true, OutOfTime, io;
      if io.Again? || io.Expired? {
        Polled(io.Again?);
        polling, outcome := false, if io.Again? then OutOfTime else Continue;
      } else if io.Failed? && io.ec != 0 {
        WriteFailed(io.ec);
        outcome := Stop;
      } else {
        used := Interrupted;
        RecordSender(Interrupted, St());
      }
    }

    // Writes once; retries after an interruption, waits while the socket is not writable.
    method WriteLoop(env: Env, budget: nat, stop: bool, size: nat) returns (clock: nat, n: nat, outcome: Outcome)
      requires Valid() && !c.guard && snd.Write? && size == |snd.bytes| && stop == msgShutdown
      modifies this
      ensures Valid() && Spent(env, old(run), run, budget, clock) && msgShutdown == old(msgShutdown)
      ensures outcome.Continue? ==> snd == Retire(n)
      ensures outcome.Stop? ==> snd == StopFlag(true)
      ensures outcome.OutOfTime? ==> clock == 0
    {
      var polling := false;
      clock, n, outcome := budget, 0, OutOfTime;
      NothingYet(env, run, budget);
      while clock > 0 && outcome.OutOfTime?
        invariant Valid() && Spent(env, old(run), run, budget, clock) && msgShutdown == old(msgShutdown)
        invariant WriteState(n, polling, outcome, old(snd.k), old(snd.bytes))
        decreases clock
      {
        clock := clock - 1;
        LetOthers(env, clock, old(run), budget);
        ghost var mid, used := run, Interrupted;
        if polling {
          polling, outcome, used := OnPoll(env.io(clock));
          n := 0;
        } else {
          n, polling, outcome, used := OnWritev(env.io(clock), stop, size);
        }
        assert FromEnv(env, used, budget, clock);
        OwnStep(env, old(run), mid, budget, clock, used);
      }
    }

    // ---- retiring what has been written

    method RetireOne(n: nat) returns (left: nat)
      requires Valid() && snd == Retire(n) && list != [] && 0 < |list[0].Rest()| <= n
      modifies this
      ensures Valid() && run == old(run) + [Sender(Data)] && msgShutdown == old(msgShutdown)
      ensures left == n - old(|list[0].Rest()|) && left < n && snd == Retire(left) && list == old(list)[1..]
    {
      ghost var before := St();
      left := Complete(n, before);
      RecordRetire(before);
    }

    method Complete(n: nat, ghost before: State) returns (left: nat)
      requires before == St() && snd == Retire(n) && list != [] && 0 < |list[0].Rest()| <= n
      modifies `list, `h, `snd
      ensures St() == StepRetire(before, n) && snd == Retire(left) && left < n && h.nextId == before.h.nextId
      ensures left == n - old(|list[0].Rest()|) && list == old(list)[1..]
    {
      var size := |list[0].Rest()|;
      h := Done(h, list[0], Sent, size);
      list, left := list[1..], n - size;
      snd := Retire(left);
    }

    method AdvanceOne(n: nat)
      requires Valid() && snd == Retire(n) && list != [] && 0 < n < |list[0].Rest()|
      modifies this
      ensures Valid() && run == old(run) + [Sender(Data)] && msgShutdown == old(msgShutdown) && snd == Top
      ensures list == [old(list)[0].(pos := old(list)[0].pos + n, sendHalf := true)] + old(list)[1..]
    {
      ghost var before := St();
      Advance(n, before);
      locked := false;
      RecordRetire(before);
    }

    method Advance(n: nat, ghost before: State)
      requires before == St() && snd == Retire(n) && list != [] && 0 < n < |list[0].Rest()|
      modifies `list, `snd
      ensures St() == StepRetire(before, n) && snd == Top
      ensures list == [old(list)[0].(pos := old(list)[0].pos + n, sendHalf := true)] + old(list)[1..]
    {
      list := [list[0].(pos := list[0].pos + n, sendHalf := true)] + list[1..];
      snd := Top;
    }

    // Messages in the send list always have something left to write.
    lemma HeadNotEmpty()
      requires Valid() && Wire.Safe(c) && list != []
      ensures |list[0].Rest()| > 0
    {
      RecordedReaches(c, past, run, St());
      WireReachable(c, run, St());
      Wire.DataFacts(h.accepted, list[0]);
    }

    // The loop over the n bytes that have been written.
    method RetireLoop(env: Env, budget: nat, written: nat) returns (clock: nat, outcome: Outcome)
      requires Valid() && !c.guard && Wire.Safe(c) && snd == Retire(written)
      modifies this
      ensures Valid() && Spent(env, old(run), run, budget, clock) && msgShutdown == old(msgShutdown) && !outcome.Stop?
      ensures if outcome.Continue? then snd == Top else clock == 0
    {
      var n := written;
      clock, outcome := budget, Continue;
      NothingYet(env, run, budget);
      while clock > 0 && list != [] && n > 0
        invariant Valid() && Spent(env, old(run), run, budget, clock) && msgShutdown == old(msgShutdown)
        invariant snd == Retire(n)
        decreases clock
      {
        HeadNotEmpty();
        OwnStep(env, old(run), run, budget, clock, Data);
        if |list[0].Rest()| <= n {
          n := RetireOne(n);
          clock := clock - 1;
          LetOthers(env, clock, old(run), budget);
        } else {
          AdvanceOne(n);
          return;
        }
      }
      if list != [] && n > 0 {
        outcome := OutOfTime;
      } else {
        OwnStep(env, old(run), run, budget, clock, Data);
        LeaveRetire(n);
      }
    }

    method LeaveRetire(n: nat)
      requires Valid() && snd == Retire(n) && (list == [] || n == 0)
      modifies this
      ensures Valid() && run == old(run) + [Sender(Data)] && msgShutdown == old(msgShutdown) && snd == Top
    {
      ghost var before := St();
      snd, locked := Top, false;
      RecordRetire(before);
    }

    // ---- shutting down the sending half

    method ShutdownSend(env: Env, budget: nat) returns (clock: nat)
      requires Valid() && !c.guard && snd.StopFlag?
      modifies this
      ensures Valid() && Spent(env, old(run), run, budget, clock) && (clock > 0 ==> snd == Ended) && sendDown
    {
      clock := budget;
      NothingYet(env, run, budget);
      OwnStep(env, run, run, budget, budget, Data);
      RaiseSendFlag();
      if clock > 0 {
        clock := clock - 1;
        LetOthers(env, clock, old(run), budget);
        ghost var mid, from := run, clock;
        clock := CloseIfLast(env, clock);
        JoinSpent(env, old(run), mid, run, budget, from, clock);
      }
      SendFlagStays();
    }

    // Tests the other half's flag.
    method CloseIfLast(env: Env, budget: nat) returns (clock: nat)
      requires Valid() && !c.guard && snd == StopTest
      modifies this
      ensures Valid() && Spent(env, old(run), run, budget, clock) && (clock > 0 ==> snd == Ended)
      ensures snd.Closing? || snd.Ended?
    {
      clock := budget;
      NothingYet(env, run, budget);
      OwnStep(env, run, run, budget, budget, Data);
      if recvDown {
        Move(Closing(TryClose));
        ghost var mid := run;
        clock := OnClose(env, budget);
        JoinSpent(env, old(run), mid, run, budget, budget, clock);
      } else {
        Move(Ended);
      }
    }

    lemma SendFlagStays()
      requires Valid() && (snd.StopTest? || snd.Closing? || snd.Ended?)
      ensures sendDown
    {
      RecordedReaches(c, past, run, St());
      GoodReachable(c, run, St());
    }

    method RaiseSendFlag()
      requires Valid() && snd.StopFlag?
      modifies this
      ensures Valid() && run == old(run) + [Sender(Data)] && snd == StopTest
    {
      ghost var before := St();
      RaiseFlag(before);
      locked := false;
      RecordSender(Data, before);
    }

    method RaiseFlag(ghost before: State)
      requires before == St() && snd.StopFlag?
      modifies `sendDown, `snd
      ensures St() == StepSender(c, before, Data) && snd == StopTest
    {
      sendDown := true;
      snd := StopTest;
    }

    // OnClose, run by goSend.
    method OnClose(env: Env, budget: nat) returns (clock: nat)
      requires Valid() && !c.guard && snd == Closing(TryClose)
      modifies this
      ensures Valid() && Spent(env, old(run), run, budget, clock) && (clock > 0 ==> snd == Ended)
      ensures snd.Closing? || snd.Ended?
    {
      var at := Some(TryClose);
      clock := budget;
      NothingYet(env, run, budget);
      while clock > 0 && at.Some?
        invariant Valid() && Spent(env, old(run), run, budget, clock) && snd == SenderAt(at)
        decreases clock
      {
        clock := clock - 1;
        LetOthers(env, clock, old(run), budget);
        OwnStep(env, old(run), run, budget, clock, Data);
        at := CloseBySender(at.value);
      }
      if at.Some? {
        clock := 0;
      }
    }

    method CloseBySender(at: ClosePc) returns (next: Option<ClosePc>)
      requires Valid() && snd == Closing(at)
      modifies this
      ensures Valid() && run == old(run) + [Sender(Data)] && snd == SenderAt(next)
    {
      ghost var before := St();
      next := CloseStep(at, before);
      snd := SenderAt(next);
      RecordSender(Data, before);
    }

    // ---- the coroutine

    method Lock() returns (remain: nat)
      requires Valid() && snd == Top && !msgShutdown
      modifies this
      ensures Valid() && run == old(run) + [Sender(Data)] && snd == Fetch(remain, 0) && !msgShutdown
      ensures remain == if |list| < c.cMulti then c.cMulti - |list| else 0
    {
      locked := true;
      remain := Max(0, c.cMulti - |list|);
      Move(Fetch(remain, 0));
    }

    method Begin(env: Env, clock: nat) returns (remain: nat)
      requires Valid() && !c.guard && snd == Top && !msgShutdown
      modifies this
      ensures Valid() && Spent(env, old(run), run, clock + 1, clock) && snd == Fetch(remain, 0) && !msgShutdown
    {
      NothingYet(env, run, clock + 1);
      OwnStep(env, run, run, clock + 1, clock + 1, Data);
      remain := Lock();
      LetOthers(env, clock, old(run), clock + 1);
    }

    // goSend, from when it is scheduled, with the other actors and the socket as `env` has them; `done` when it
    // has returned, otherwise it has gone on until the clock stood at zero.
    method GoSend(env: Env, budget: nat) returns (done: bool, clock: nat)
      requires Valid() && Wire.Safe(c) && !c.guard && snd == Ready
      modifies this
      ensures Valid() && Spent(env, old(run), run, budget, clock) && Untorn(St())
      ensures if done then snd == Ended && sendDown else clock == 0
    {
      done, clock := Rounds(env, budget);
      RecordedReaches(c, past, run, St());
      NothingTorn(c, run, St());
    }

    method Rounds(env: Env, budget: nat) returns (done: bool, clock: nat)
      requires Valid() && Wire.Safe(c) && !c.guard && snd == Ready
      modifies this
      ensures Valid() && Spent(env, old(run), run, budget, clock)
      ensures if done then snd == Ended && sendDown else clock == 0
    {
      NotStoppedYet();
      NothingYet(env, run, budget);
      OwnStep(env, run, run, budget, budget, Data);
      Move(Top);
      ghost var mid := run;
      var outcome;
      clock, outcome := OuterLoop(env, budget);
      JoinSpent(env, old(run), mid, run, budget, budget, clock);
      if outcome.Stop? {
        ghost var from := clock;
        mid := run;
        clock := ShutdownSend(env, clock);
        JoinSpent(env, old(run), mid, run, budget, from, clock);
      }
      done := outcome.Stop? && clock > 0;
    }

    // The outer loop of goSend, until it calls ShutdownSend.
    method OuterLoop(env: Env, budget: nat) returns (clock: nat, outcome: Outcome)
      requires Valid() && Wire.Safe(c) && !c.guard && snd == Top && !msgShutdown
      modifies this
      ensures Valid() && Spent(env, old(run), run, budget, clock)
      ensures if outcome.Stop? then snd.StopFlag? else clock == 0
    {
      var stop := false;
      clock, outcome := budget, Continue;
      NothingYet(env, run, budget);
      while clock > 0 && outcome.Continue?
        invariant Valid() && Spent(env, old(run), run, budget, clock) && LeftRound(stop, outcome, clock)
        decreases clock
      {
        ghost var mid, from := run, clock;
        clock, stop, outcome := OneRound(env, clock, stop);
        JoinSpent(env, old(run), mid, run, budget, from, clock);
      }
    }

    // Where a round leaves goSend.
    ghost predicate LeftRound(stop: bool, outcome: Outcome, clock: nat)
      reads this
    {
      && (outcome.Continue? ==> snd == Top && stop == msgShutdown)
      && (outcome.Stop? ==> snd.StopFlag?)
      && (outcome.OutOfTime? ==> clock == 0)
    }

    method OneRound(env: Env, budget: nat, stopping: bool) returns (clock: nat, stop: bool, outcome: Outcome)
      requires Valid() && Wire.Safe(c) && !c.guard && snd == Top && stopping == msgShutdown && budget > 0
      modifies this
      ensures Valid() && Spent(env, old(run), run, budget, clock) && clock < budget
      ensures LeftRound(stop, outcome, clock)
    {
      if stopping {
        StopHere(env, budget - 1);
        clock, stop, outcome := budget - 1, true, Stop;
      } else {
        clock, stop, outcome := Round(env, budget);
      }
    }

    // Leaves the outer loop after a shutdown message.
    method StopHere(env: Env, clock: nat)
      requires Valid() && !c.guard && snd == Top && msgShutdown
      modifies this
      ensures Valid() && Spent(env, old(run), run, clock + 1, clock) && snd == StopFlag(false)
    {
      NothingYet(env, run, clock + 1);
      OwnStep(env, run, run, clock + 1, clock + 1, Data);
      Move(StopFlag(false));
      LetOthers(env, clock, old(run), clock + 1);
    }

    lemma NotStoppedYet()
      requires Valid() && snd == Ready
      ensures !msgShutdown
    {
      RecordedReaches(c, past, run, St());
      GoodReachable(c, run, St());
    }

    // One round of the outer loop of goSend.
    method Round(env: Env, budget: nat) returns (clock: nat, stop: bool, outcome: Outcome)
      requires Valid() && Wire.Safe(c) && !c.guard && snd == Top && !msgShutdown && budget > 0
      modifies this
      ensures Valid() && Spent(env, old(run), run, budget, clock) && clock < budget
      ensures LeftRound(stop, outcome, clock)
      ensures outcome.Stop? ==> snd == StopFlag(true)
    {
      var remain := Begin(env, budget - 1);
      ghost var mid := run;
      clock, stop, outcome := Batch(env, budget - 1, remain);
      JoinSpent(env, old(run), mid, run, budget, budget - 1, clock);
    }

    method Batch(env: Env, budget: nat, remain: nat) returns (clock: nat, stop: bool, outcome: Outcome)
      requires Valid() && Wire.Safe(c) && !c.guard && snd == Fetch(remain, 0) && !msgShutdown
      modifies this
      ensures Valid() && Spent(env, old(run), run, budget, clock) && LeftRound(stop, outcome, clock)
      ensures outcome.Stop? ==> snd == StopFlag(true)
    {
      var f;
      clock, f := FetchLoop(env, budget, remain);
      stop := f.Full? && f.stop;
      if f.Full? {
        ghost var mid, from := run, clock;
        clock, outcome := Flush(env, clock, stop);
        JoinSpent(env, old(run), mid, run, budget, from, clock);
      } else {
        outcome := if f.Quit? then Stop else OutOfTime;
      }
    }

    // Gathers, writes once, and retires what has been written.
    method Flush(env: Env, budget: nat, stop: bool) returns (clock: nat, outcome: Outcome)
      requires Valid() && Wire.Safe(c) && !c.guard && snd == StartGather(c, St().q) && stop == msgShutdown
      modifies this
      ensures Valid() && Spent(env, old(run), run, budget, clock) && msgShutdown == old(msgShutdown)
      ensures outcome.Continue? ==> snd == Top
      ensures outcome.Stop? ==> snd == StopFlag(true)
      ensures outcome.OutOfTime? ==> clock == 0
    {
      var buffers := new Bytes[Min(|list|, c.cMulti)];
      var k, n;
      clock, k, outcome := GatherLoop(env, budget, buffers);
      if outcome.Continue? && k > 0 {
        ghost var mid, from := run, clock;
        clock, n, outcome := WriteLoop(env, clock, stop, Total(buffers[..k]));
        JoinSpent(env, old(run), mid, run, budget, from, clock);
        if outcome.Continue? {
          mid, from := run, clock;
          clock, outcome := RetireLoop(env, clock, n);
          JoinSpent(env, old(run), mid, run, budget, from, clock);
        }
      }
    }
  }

  // write_bytes
  function Total(bufs: seq<Bytes>): (n: nat)
    ensures n == |Flatten(bufs)|
  {
    if bufs == [] then 0 else Total(bufs[..|bufs| - 1]) + |bufs[|bufs| - 1]|
  }
}
