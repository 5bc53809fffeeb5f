/**
 The send pipeline and the close protocol of one TCP session, as a labelled step system.

 The sender coroutine (goSend), the receiver coroutine (goReceive), the user's API calls, the
 send timers and the socket are the actors.  A `Label` names an actor and carries what the outside
 world chose (how many bytes a write took, which error a poll gave); `Step` is what the code then
 does, up to the next point where another actor may run.  Every iteration of every loop of goSend
 is a step of its own, so user callbacks running inside these loops need no special treatment: what
 they do is a step of another actor taken between two steps of the sender.
 */
module SendMachine {
  import opened Wrappers

  type Bytes = seq<char>

  // The capacity the channel of queued messages is created with, (std::size_t)-1.
  const CHAN_CAP: nat := 0xFFFF_FFFF_FFFF_FFFF

  datatype Config = Config(
    cMulti: nat,    // how many buffers one writev gathers
    ssl: bool,      // an SSL socket: SendNoDelay never writes by itself
    window: bool,   // may others run while goSend is between releasing and retaking send_mtx_?
    guard: bool)    // a stricter SendNoDelay, which also requires an empty send list
  {
    predicate Valid() { cMulti >= 1 }
  }

  datatype Msg = Msg(id: nat, buf: Bytes, pos: nat, sendHalf: bool, timeout: bool, shutdown: bool)
  {
    // The bytes still to be written.
    function Rest(): Bytes { if pos <= |buf| then buf[pos..] else [] }
  }

  const SHUTDOWN_MSG := Msg(0, [], 0, false, false, true)

  datatype Verdict = Sent | TimedOut | ShutDown

  // One run of Msg::Done on an accepted message; `count` is how many of its original bytes are on
  // the wire by then.
  datatype Entry = Entry(id: nat, verdict: Verdict, count: int)

  datatype Event = Connected | Received | Disconnected(ec: int)

  // Where OnClose is.
  datatype ClosePc = TryClose | DrainChan | DrainList | Disconnecting

  // Where goSend is, with its local variables.
  datatype SendPc =
    | Unstarted
    | Ready                                          // dispatched, not yet running
    | Top                                            // start of the outer loop, send_mtx_ free
    | Fetch(remain: nat, inserted: nat)              // the loop that empties the channel
    | Parked(remain: nat, inserted: nat)             // blocked on the channel, send_mtx_ free
    | Woken(hand: Msg, remain: nat, inserted: nat)   // took a message, has not relocked yet
    | Gather(cap: nat, k: nat, bytes: Bytes)         // the loop that fills `cap` buffers, k are filled
    | Write(k: nat, bytes: Bytes)                    // about to call writev
    | Poll(k: nat, bytes: Bytes)                     // waiting for the socket to become writable
    | Retire(n: nat)                                 // n written bytes are still to be accounted for
    | StopFlag(locked: bool)                         // in ShutdownSend, before setting the flag
    | StopTest                                       // in ShutdownSend, before testing the other flag
    | Closing(at: ClosePc)
    | Ended

  // Where goReceive is.
  datatype RecvPc =
    | RUnstarted
    | Reading
    | RFlag
    | RTest
    | RPush
    | RClosing(at: ClosePc)
    | REnded

  // msg_chan_, msg_send_list_ and sending_
  datatype Queues = Queues(chan: seq<Msg>, list: seq<Msg>, sending: bool)

  // The shutdown flags, the closed_ mutex, the close reason, and the calls of the session callbacks.
  datatype Life = Life(initiative: bool, sendDown: bool, recvDown: bool, closed: bool, closeEc: int,
                       events: seq<Event>)

  datatype History = History(
    nextId: nat,
    accepted: map<nat, Bytes>,   // the original bytes of every accepted message
    queued: set<nat>,            // the accepted messages that went through the channel
    wire: Bytes,
    log: seq<Entry>)

  datatype State = State(q: Queues, life: Life, snd: SendPc, msgShutdown: bool, rcv: RecvPc, h: History)

  // What the outside world answers to the actor that moves.
  datatype Io = Wrote(n: nat) | Again | Interrupted | Expired | Failed(ec: int) | Data

  datatype Label =
    | ApiSend(bytes: Bytes)
    | ApiSendNoDelay(bytes: Bytes, raw: bool, written: int)
    | ApiShutdown
    | Timer(id: nat)
    | Start
    | Sender(io: Io)
    | Receiver(io: Io)

  const INIT := State(Queues([], [], false), Life(false, false, false, false, 0, []),
                      Unstarted, false, RUnstarted, History(0, map[], {}, [], []))

  const EC_SHUTDOWN := 3

  // ---------------------------------------------------------------- shared pieces

  predicate Rejecting(life: Life) { life.recvDown || life.sendDown || life.initiative }

  predicate LockHeld(p: SendPc) {
    p.Fetch? || p.Gather? || p.Write? || p.Poll? || p.Retire? || (p.StopFlag? && p.locked)
  }

  function Min(a: int, b: int): int { if a <= b then a else b }

  function Max(a: int, b: int): int { if a <= b then b else a }

  // How many of the original bytes of m have been written.
  function CountOf(accepted: map<nat, Bytes>, m: Msg): int {
    if m.id in accepted then |accepted[m.id]| - |m.Rest()| else 0
  }

  // Msg::Done; a shutdown message carries no callback.  `now` bytes of the message are on the wire
  // that its position does not count yet.
  function DoneLog(accepted: map<nat, Bytes>, log: seq<Entry>, m: Msg, v: Verdict, now: nat): seq<Entry> {
    if m.shutdown then log else log + [Entry(m.id, v, CountOf(accepted, m) + now)]
  }

  function Done(h: History, m: Msg, v: Verdict, now: nat): History {
    h.(log := DoneLog(h.accepted, h.log, m, v, now))
  }

  function SetCloseEc(life: Life, ec: int): Life {
    if life.closeEc == 0 then life.(closeEc := ec) else life
  }

  function PushShutdown(q: Queues): Queues {
    if |q.chan| < CHAN_CAP then q.(chan := q.chan + [SHUTDOWN_MSG]) else q
  }

  function SetTimeout(ms: seq<Msg>, id: nat): (r: seq<Msg>)
    ensures |r| == |ms|
    ensures forall i :: 0 <= i < |ms| ==> r[i] == TimeoutOne(ms[i], id)
  {
    seq(|ms|, i requires 0 <= i < |ms| => TimeoutOne(ms[i], id))
  }

  function TimeoutOne(m: Msg, id: nat): Msg {
    if m.id == id && !m.shutdown then m.(timeout := true) else m
  }

  // ---------------------------------------------------------------- the user's calls

  function Accept(h: History, bytes: Bytes): History {
    h.(accepted := h.accepted[h.nextId := bytes], nextId := h.nextId + 1)
  }

  function StepSend(s: State, bytes: Bytes): State {
    if bytes == [] || Rejecting(s.life) || |s.q.chan| >= CHAN_CAP then s
    else s.(q := s.q.(chan := s.q.chan + [Msg(s.h.nextId, bytes, 0, false, false, false)]),
            h := Accept(s.h, bytes).(queued := s.h.queued + {s.h.nextId}))
  }

  // The message SendNoDelay keeps after a partial write: the Buffer overload keeps the whole buffer
  // and a position, the raw-pointer overload copies the tail only.
  function HalfSent(id: nat, bytes: Bytes, raw: bool, written: nat): Msg
    requires written <= |bytes|
  {
    if raw then Msg(id, bytes[written..], 0, true, false, false)
    else Msg(id, bytes, written, true, false, false)
  }

  predicate MayWriteNow(c: Config, s: State) {
    !c.ssl && !LockHeld(s.snd) && !s.q.sending && (c.guard ==> s.q.list == [])
  }

  function StepSendNoDelay(c: Config, s: State, bytes: Bytes, raw: bool, written: int): State {
    if bytes == [] || Rejecting(s.life) then s
    else if !MayWriteNow(c, s) || written <= 0 then StepSend(s, bytes)
    else WriteNow(s, bytes, raw, written)
  }

  function WriteNow(s: State, bytes: Bytes, raw: bool, written: nat): State {
    if written >= |bytes| then
      s.(h := Accept(s.h, bytes).(wire := s.h.wire + bytes,
                                  log := s.h.log + [Entry(s.h.nextId, Sent, |bytes|)]))
    else
      s.(q := s.q.(list := [HalfSent(s.h.nextId, bytes, raw, written)] + s.q.list, sending := true),
         h := Accept(s.h, bytes).(wire := s.h.wire + bytes[..written]))
  }

  function StepShutdown(s: State): State {
    s.(q := PushShutdown(s.q), life := SetCloseEc(s.life, EC_SHUTDOWN).(initiative := true))
  }

  function StepTimer(s: State, id: nat): State {
    s.(q := s.q.(chan := SetTimeout(s.q.chan, id), list := SetTimeout(s.q.list, id)),
       snd := if s.snd.Woken? then s.snd.(hand := TimeoutOne(s.snd.hand, id)) else s.snd)
  }

  function StepStart(s: State): State {
    s.(life := s.life.(events := s.life.events + [Connected]), snd := Ready, rcv := Reading)
  }

  // ---------------------------------------------------------------- OnClose

  function CloseQueues(q: Queues, at: ClosePc): Queues {
    match at
    case DrainChan => if q.chan == [] then q else q.(chan := q.chan[1..])
    case DrainList => if q.list == [] then q else q.(list := q.list[1..])
    case _ => q
  }

  function CloseLife(life: Life, at: ClosePc): Life {
    match at
    case TryClose => life.(closed := true)
    case Disconnecting => life.(events := life.events + [Disconnected(life.closeEc)])
    case _ => life
  }

  function CloseHistory(h: History, q: Queues, at: ClosePc): History {
    match at
    case DrainChan => if q.chan == [] then h else Done(h, q.chan[0], ShutDown, 0)
    case DrainList => if q.list == [] then h else Done(h, q.list[0], ShutDown, 0)
    case _ => h
  }

  // Where OnClose is after the step; None when it has returned.
  function NextClose(s: State, at: ClosePc): Option<ClosePc> {
    match at
    case TryClose => if s.life.closed then None else Some(DrainChan)
    case DrainChan => if s.q.chan == [] then Some(DrainList) else Some(DrainChan)
    case DrainList => if s.q.list == [] then Some(Disconnecting) else Some(DrainList)
    case Disconnecting => None
  }

  function StepClose(s: State, at: ClosePc, snd: SendPc, rcv: RecvPc): State {
    State(CloseQueues(s.q, at), CloseLife(s.life, at), snd, s.msgShutdown, rcv,
          CloseHistory(s.h, s.q, at))
  }

  function SenderAt(next: Option<ClosePc>): SendPc { if next.Some? then Closing(next.value) else Ended }

  function ReceiverAt(next: Option<ClosePc>): RecvPc { if next.Some? then RClosing(next.value) else REnded }

  // ---------------------------------------------------------------- goSend

  function StartGather(c: Config, q: Queues): SendPc { Gather(Min(|q.list|, c.cMulti), 0, []) }

  // What goSend does with a message it has taken out of the channel.
  function Classify(c: Config, s: State, q: Queues, m: Msg, remain: nat, inserted: nat): State {
    if m.shutdown then s.(q := q, msgShutdown := true, snd := StartGather(c, q))
    else if m.timeout then s.(q := q, h := Done(s.h, m, TimedOut, 0), snd := Fetch(remain, inserted))
    else s.(q := q.(list := q.list + [m]), snd := Fetch(remain, inserted + 1))
  }

  function StepFetch(c: Config, s: State, remain: nat, inserted: nat): State {
    if inserted >= remain then s.(snd := StartGather(c, s.q))
    else if s.q.chan != [] then
      Classify(c, s, s.q.(chan := s.q.chan[1..]), s.q.chan[0], remain, inserted)
    else if s.q.list != [] then s.(snd := StartGather(c, s.q))
    else if s.life.initiative then s.(snd := StopFlag(true))
    else s.(q := s.q.(sending := false), snd := Parked(remain, inserted))
  }

  // The blocking read of the channel gives the first message that is or comes in.
  function StepParked(s: State, remain: nat, inserted: nat): State {
    if s.q.chan == [] then s
    else s.(q := s.q.(chan := s.q.chan[1..]), snd := Woken(s.q.chan[0], remain, inserted))
  }

  function StepGather(c: Config, s: State, cap: nat, k: nat, bytes: Bytes): State {
    var list := s.q.list;
    if k < |list| && list[k].timeout && !list[k].sendHalf then
      s.(q := s.q.(list := list[..k] + list[k + 1..]), h := Done(s.h, list[k], TimedOut, 0))
    else if k < |list| && k < c.cMulti then s.(snd := Gather(cap, k + 1, bytes + list[k].Rest()))
    else if k == 0 then s.(snd := Top)
    else s.(snd := Write(k, bytes))
  }

  function StepWrite(s: State, k: nat, bytes: Bytes, io: Io): State {
    match io
    case Wrote(n) =>
      if n <= |bytes| then s.(h := s.h.(wire := s.h.wire + bytes[..n]), snd := Retire(n)) else s
    case Again => if s.msgShutdown then s.(snd := Retire(0)) else s.(snd := Poll(k, bytes))
    case Failed(ec) => s.(life := SetCloseEc(s.life, ec), snd := StopFlag(true))
    case _ => s
  }

  function StepPoll(s: State, k: nat, bytes: Bytes, io: Io): State {
    match io
    case Again => s.(snd := Write(k, bytes))   // POLLOUT: try writev again
    case Expired => s.(snd := Retire(0))
    case Failed(ec) => s.(life := SetCloseEc(s.life, ec), snd := StopFlag(true))
    case _ => s
  }

  function StepRetire(s: State, n: nat): State {
    if s.q.list == [] || n == 0 then s.(snd := Top)
    else if |s.q.list[0].Rest()| <= n then RetireHead(s, n)
    else AdvanceHead(s, n)
  }

  function RetireHead(s: State, n: nat): State
    requires s.q.list != [] && |s.q.list[0].Rest()| <= n
  {
    var m := s.q.list[0];
    var left := |m.Rest()|;
    s.(q := s.q.(list := s.q.list[1..]), h := Done(s.h, m, Sent, left), snd := Retire(n - left))
  }

  function AdvanceHead(s: State, n: nat): State
    requires s.q.list != []
  {
    s.(q := s.q.(list := Advanced(s.q.list, n)), snd := Top)
  }

  function Advanced(list: seq<Msg>, n: nat): seq<Msg>
    requires list != []
  {
    [list[0].(pos := list[0].pos + n, sendHalf := true)] + list[1..]
  }

  function StepSender(c: Config, s: State, io: Io): State {
    match s.snd
    case Unstarted => s
    case Ready => s.(snd := Top)
    case Top =>
      s.(snd := if s.msgShutdown then StopFlag(false) else Fetch(Max(0, c.cMulti - |s.q.list|), 0))
    case Fetch(remain, inserted) => StepFetch(c, s, remain, inserted)
    case Parked(remain, inserted) => StepParked(s, remain, inserted)
    case Woken(m, remain, inserted) => Classify(c, s, s.q, m, remain, inserted)
    case Gather(cap, k, bytes) => StepGather(c, s, cap, k, bytes)
    case Write(k, bytes) => StepWrite(s, k, bytes, io)
    case Poll(k, bytes) => StepPoll(s, k, bytes, io)
    case Retire(n) => StepRetire(s, n)
    case StopFlag(_) => s.(life := s.life.(sendDown := true), snd := StopTest)
    case StopTest => s.(snd := if s.life.recvDown then Closing(TryClose) else Ended)
    case Closing(at) => StepClose(s, at, SenderAt(NextClose(s, at)), s.rcv)
    case Ended => s
  }

  // ---------------------------------------------------------------- goReceive

  function StepReceiver(s: State, io: Io): State {
    match s.rcv
    case RUnstarted => s
    case Reading => StepReading(s, io)
    case RFlag => s.(life := s.life.(recvDown := true), rcv := RTest)
    case RTest => s.(rcv := if s.life.sendDown then RClosing(TryClose) else RPush)
    case RPush => s.(q := PushShutdown(s.q), rcv := REnded)
    case RClosing(at) => StepClose(s, at, s.snd, ReceiverAt(NextClose(s, at)))
    case REnded => s
  }

  function StepReading(s: State, io: Io): State {
    match io
    case Data => s.(life := s.life.(events := s.life.events + [Received]))
    case Failed(ec) => s.(life := SetCloseEc(s.life, ec), rcv := RFlag)
    case _ => s
  }

  // ---------------------------------------------------------------- steps and runs

  // Error codes are never zero; a write takes no more than it is offered.
  predicate IoOk(s: State, io: Io) {
    && (io.Failed? ==> io.ec != 0)
    && (io.Wrote? && s.snd.Write? ==> io.n <= |s.snd.bytes|)
  }

  predicate Enabled(c: Config, s: State, l: Label) {
    match l
    case Sender(io) => IoOk(s, io)
    case Receiver(io) => IoOk(s, io) && OthersMayRun(c, s)
    case ApiSendNoDelay(bytes, _, written) => written <= |bytes| && OthersMayRun(c, s)
    case Start => s.snd.Unstarted? && s.rcv.RUnstarted? && OthersMayRun(c, s)
    case _ => OthersMayRun(c, s)
  }

  // Coroutines switch only where goSend blocks or calls out; releasing and retaking send_mtx_
  // around the end of the loop body is no such place, unless coroutines run on several threads.
  predicate OthersMayRun(c: Config, s: State) { c.window || !s.snd.Top? }

  function Step(c: Config, s: State, l: Label): State {
    match l
    case ApiSend(bytes) => StepSend(s, bytes)
    case ApiSendNoDelay(bytes, raw, written) => StepSendNoDelay(c, s, bytes, raw, written)
    case ApiShutdown => StepShutdown(s)
    case Timer(id) => StepTimer(s, id)
    case Start => StepStart(s)
    case Sender(io) => StepSender(c, s, io)
    case Receiver(io) => StepReceiver(s, io)
  }

  // The state a run ends in; None when some step of it was not enabled.
  function Exec(c: Config, ls: seq<Label>): Option<State> {
    if ls == [] then Some(INIT)
    else
      var before := Exec(c, ls[..|ls| - 1]);
      if before.Some? && Enabled(c, before.value, ls[|ls| - 1])
      then Some(Step(c, before.value, ls[|ls| - 1])) else None
  }

  predicate Reaches(c: Config, ls: seq<Label>, s: State) { Exec(c, ls) == Some(s) }
}
