/**
 The receive buffer of goReceive: a byte array that grows, is compacted in place and shrinks, and behaves
 like an unbounded stream with a cursor.
 */
module RecvBuffer {
  import opened Wrappers

  type Bytes = seq<char>

  // ---------------------------------------------------------------- 32-bit arithmetic

  const U32: nat := 0x1_0000_0000

  function ToU32(n: nat): nat { n % U32 }

  function Min(a: nat, b: nat): nat { if a <= b then a else b }

  function Max(a: nat, b: nat): nat { if a >= b then a else b }

  // The doubled size, cut to 32 bits first and limited then.
  function Grown(size: nat, hard: nat): nat { Min(ToU32(size * 2), hard) }

  // The size from which a buffer may be shrunk, in 32 bits.
  function ShrinkAt(shrink: nat): nat { ToU32(shrink + shrink / 2) }

  // A full buffer below its limit grows, within the limit, exactly if it is not empty and under 2^31 bytes.
  lemma GrowsExactly(size: nat, hard: nat)
    requires size < hard < U32
    ensures size < Grown(size, hard) <= hard <==> 0 < size < 0x8000_0000
  {
  }

  // A buffer of 2^31 bytes is cut to nothing instead.
  lemma GrowthWraps()
    ensures Grown(0x8000_0000, U32 - 1) == 0
  {
  }

  // A buffer of this size is not enlarged when it is "shrunk".
  predicate ShrinksOrStays(size: nat, shrink: nat) { size >= ShrinkAt(shrink) ==> shrink <= size }

  // Shrinking never enlarges a buffer, whatever its size, exactly when the threshold does not wrap.
  lemma ShrinksExactly(shrink: nat)
    requires shrink < U32
    ensures (forall size: nat :: ShrinksOrStays(size, shrink)) <==> shrink + shrink / 2 < U32
  {
    if shrink + shrink / 2 >= U32 {
      assert ShrinkAt(shrink) == shrink + shrink / 2 - U32;
      assert !ShrinksOrStays(ShrinkAt(shrink), shrink);
    } else {
      forall size: nat ensures ShrinksOrStays(size, shrink) {}
    }
  }

  // The options of the session: max_pack_size_, max_pack_size_shrink_, max_pack_size_hard_.
  datatype Options = Options(pack: nat, shrink: nat, hard: nat)
  {
    function Shrink(): nat { Max(shrink, pack) }

    function Hard(): nat { Max(hard, pack) }

    // No 32-bit computation goes wrong.
    predicate NoWrap() {
      && (pack >= hard || (1 <= pack && hard <= 0x8000_0000))
      && Shrink() + Shrink() / 2 < U32
    }
  }

  // This is so exactly if every buffer that may have to grow does grow, within the limit, and no buffer is
  // enlarged when it is shrunk.
  lemma NoWrapExactly(opt: Options)
    requires opt.pack < U32 && opt.shrink < U32 && opt.hard < U32
    ensures var shrink := if opt.shrink >= opt.pack then opt.shrink else opt.pack;
      opt.NoWrap() <==>
        (forall size: nat :: opt.pack <= size < opt.hard ==> GrowsWithin(size, opt.hard))
        && (forall size: nat :: ShrinksOrStays(size, shrink))
  {
    ShrinksExactly(opt.Shrink());
    AllGrow(opt.pack, opt.hard);
  }

  lemma AllGrow(pack: nat, hard: nat)
    requires hard < U32
    ensures (forall size: nat :: pack <= size < hard ==> GrowsWithin(size, hard))
            <==> pack >= hard || (1 <= pack && hard <= 0x8000_0000)
  {
    if pack < hard {
      GrowsExactly(pack, hard);
      GrowsExactly(hard - 1, hard);
      assert GrowsWithin(pack, hard) && GrowsWithin(hard - 1, hard) ==> 0 < pack && hard <= 0x8000_0000;
    }
  }

  predicate GrowsWithin(size: nat, hard: nat) { size < Grown(size, hard) <= hard }

  // ---------------------------------------------------------------- the stream it stands for

  // All bytes read, and how many of them have been consumed.
  datatype Cursor = Cursor(stream: Bytes, consumed: nat)
  {
    predicate Valid() { consumed <= |stream| }

    function Rest(): Bytes
      requires Valid()
    {
      stream[consumed..]
    }
  }

  // A receive callback: consumes a part of what it is offered, or answers -1.
  ghost predicate Callback(cb: Bytes -> int) {
    forall b: Bytes :: -1 <= cb(b) <= |b|
  }

  // Without a callback nothing is consumed.
  function Consumer(cb: Option<Bytes -> int>): Bytes -> int {
    if cb.Some? then cb.value else b => 0
  }

  // A callback may do something else each time it is called; cbs(n) is what it does the n-th time.
  ghost predicate Callbacks(cbs: nat -> Option<Bytes -> int>) {
    forall n: nat :: Callback(Consumer(cbs(n)))
  }

  // More bytes come in, and the callback is offered all that is not consumed.
  function Offer(cb: Bytes -> int, at: Cursor, chunk: Bytes): (r: Cursor)
    requires Callback(cb) && at.Valid() && cb(at.Rest() + chunk) >= 0
    ensures r.Valid()
  {
    Cursor(at.stream + chunk, at.consumed + cb(at.Rest() + chunk))
  }

  // The callback, to be called for the n-th time, accepts all that it is offered on the way.
  ghost predicate Accepts(cbs: nat -> Option<Bytes -> int>, n: nat, at: Cursor, chunks: seq<Bytes>)
    requires Callbacks(cbs) && at.Valid()
    decreases chunks
  {
    chunks == [] ||
    (Consumer(cbs(n))(at.Rest() + chunks[0]) >= 0
     && Accepts(cbs, n + 1, Offer(Consumer(cbs(n)), at, chunks[0]), chunks[1..]))
  }

  ghost function Feed(cbs: nat -> Option<Bytes -> int>, n: nat, at: Cursor, chunks: seq<Bytes>): (r: Cursor)
    requires Callbacks(cbs) && at.Valid() && Accepts(cbs, n, at, chunks)
    ensures r.Valid()
    decreases chunks
  {
    if chunks == [] then at else Feed(cbs, n + 1, Offer(Consumer(cbs(n)), at, chunks[0]), chunks[1..])
  }

  lemma {:induction false} FeedOne(cbs: nat -> Option<Bytes -> int>, n: nat, at: Cursor, chunks: seq<Bytes>, chunk: Bytes)
    requires Callbacks(cbs) && at.Valid() && Accepts(cbs, n, at, chunks)
    requires Consumer(cbs(n + |chunks|))(Feed(cbs, n, at, chunks).Rest() + chunk) >= 0
    ensures Accepts(cbs, n, at, chunks + [chunk])
    ensures Feed(cbs, n, at, chunks + [chunk]) == Offer(Consumer(cbs(n + |chunks|)), Feed(cbs, n, at, chunks), chunk)
    decreases chunks
  {
    if chunks == [] {
      assert (chunks + [chunk])[1..] == [];
    } else {
      var next, rest := Offer(Consumer(cbs(n)), at, chunks[0]), chunks[1..];
      assert (chunks + [chunk])[1..] == rest + [chunk];
      assert n + 1 + |rest| == n + |chunks|;
      FeedOne(cbs, n + 1, next, rest, chunk);
    }
  }

  // ---------------------------------------------------------------- independence of the chunking

  // The same callback every time.
  function Same(cb: Bytes -> int): nat -> Option<Bytes -> int> { n => Some(cb) }

  // What the callback consumes of a + b is what it consumes of a, and then of what is left of a with b,
  // unless it answers -1 to one of these two.
  ghost predicate Incremental(cb: Bytes -> int) {
    Callback(cb) && forall a: Bytes, b: Bytes :: Splits(cb, a, b)
  }

  ghost predicate Splits(cb: Bytes -> int, a: Bytes, b: Bytes)
    requires Callback(cb)
  {
    cb(a) >= 0 ==> cb(a[cb(a)..] + b) >= 0 ==> cb(a + b) == cb(a) + cb(a[cb(a)..] + b)
  }

  function Concat(chunks: seq<Bytes>): Bytes {
    if chunks == [] then [] else chunks[0] + Concat(chunks[1..])
  }

  // However the stream is cut, what has been consumed is what the callback consumes of it at once.
  lemma {:induction false} FeedConsumes(cb: Bytes -> int, n: nat, at: Cursor, chunks: seq<Bytes>)
    requires Incremental(cb) && at.Valid() && at.consumed == cb(at.stream)
    requires Accepts(Same(cb), n, at, chunks)
    ensures Feed(Same(cb), n, at, chunks).stream == at.stream + Concat(chunks)
    ensures Feed(Same(cb), n, at, chunks).consumed == cb(at.stream + Concat(chunks))
    decreases chunks
  {
    if chunks == [] {
      assert at.stream + Concat(chunks) == at.stream;
    } else {
      assert Splits(cb, at.stream, chunks[0]);
      FeedConsumes(cb, n + 1, Offer(cb, at, chunks[0]), chunks[1..]);
      assert at.stream + chunks[0] + Concat(chunks[1..]) == at.stream + Concat(chunks);
    }
  }

  const START := Cursor([], 0)

  // From the start: all that has been consumed is what the callback consumes of the whole stream, if anything
  // has come in at all.
  lemma FeedsAll(cb: Bytes -> int, chunks: seq<Bytes>)
    requires Incremental(cb) && Accepts(Same(cb), 0, START, chunks)
    ensures Feed(Same(cb), 0, START, chunks).stream == Concat(chunks)
    ensures Feed(Same(cb), 0, START, chunks).consumed == if chunks == [] then 0 else cb(Concat(chunks))
  {
    if chunks != [] {
      assert START.Rest() + chunks[0] == START.stream + chunks[0] == chunks[0];
      FeedConsumes(cb, 1, Offer(cb, START, chunks[0]), chunks[1..]);
    }
  }

  // Two ways of cutting the same stream, to neither of which the callback answers -1, leave the same bytes
  // unconsumed.
  lemma ChunkingDoesNotMatter(cb: Bytes -> int, chunks: seq<Bytes>, chunks': seq<Bytes>)
    requires Incremental(cb) && Concat(chunks) == Concat(chunks')
    requires Accepts(Same(cb), 0, START, chunks) && Accepts(Same(cb), 0, START, chunks')
    ensures Feed(Same(cb), 0, START, chunks) == Feed(Same(cb), 0, START, chunks')
  {
    FeedsAll(cb, chunks);
    FeedsAll(cb, chunks');
    if chunks == [] || chunks' == [] {
      assert Feed(Same(cb), 0, START, chunks).stream == [];
    }
  }

  // The usual kind of callback takes as many whole frames of n bytes as there are, and may answer -1 to bytes
  // that are not allowed.
  function Frames(length: nat, n: nat): (r: nat)
    requires n > 0
    ensures r <= length
  {
    if length < n then 0 else n + Frames(length - n, n)
  }

  lemma {:induction false} FramesSplit(x: nat, y: nat, n: nat)
    requires n > 0
    ensures Frames(x + y, n) == Frames(x, n) + Frames(x - Frames(x, n) + y, n)
  {
    if x >= n {
      FramesSplit(x - n, y, n);
    }
  }

  predicate AllAllowed(allowed: set<char>, b: Bytes) { forall i :: 0 <= i < |b| ==> b[i] in allowed }

  function TakeFrames(allowed: set<char>, n: nat): Bytes -> int
    requires n > 0
  {
    b => if AllAllowed(allowed, b) then Frames(|b|, n) else -1
  }

  lemma FramesAreIncremental(allowed: set<char>, n: nat)
    requires n > 0
    ensures Incremental(TakeFrames(allowed, n))
  {
    var cb := TakeFrames(allowed, n);
    forall a: Bytes, b: Bytes ensures Splits(cb, a, b) {
      if AllAllowed(allowed, a) && AllAllowed(allowed, a[cb(a)..] + b) {
        AllowedTogether(allowed, a, cb(a), b);
        FramesSplit(|a|, |b|, n);
      }
    }
  }

  lemma AllowedTogether(allowed: set<char>, a: Bytes, k: nat, b: Bytes)
    requires k <= |a| && AllAllowed(allowed, a) && AllAllowed(allowed, a[k..] + b)
    ensures AllAllowed(allowed, a + b)
  {
    assert forall i :: 0 <= i < |b| ==> (a[k..] + b)[|a| - k + i] == b[i];
  }

  // ---------------------------------------------------------------- the buffer

  datatype Ec = NoError | Overflow | ParseError | System(code: int)

  // What read_some answers.
  datatype Incoming = Got(bytes: Bytes) | Error(code: int)

  // read_some: told how much room there is, it answers with no more bytes than that, or an error.
  ghost predicate Socket(read: nat -> Incoming) {
    forall room: nat :: read(room).Got? ==> |read(room).bytes| <= room
  }

  lemma RestAfter(at: Cursor, bytes: Bytes, consume: nat)
    requires at.Valid() && consume <= |at.Rest()| + |bytes|
    ensures Cursor(at.stream + bytes, at.consumed + consume).Rest() == (at.Rest() + bytes)[consume..]
  {
  }

  class Receiver {
    const opt: Options
    var buf: array<char>
    var pos: nat
    ghost var at: Cursor
    // bytes copied by growing and by shrinking
    ghost var grown: nat
    ghost var shrunk: nat
    // how much had been received when the buffer was last resized, and what had been copied by growing
    // when it was last shrunk
    ghost var received0: nat
    ghost var grown0: nat

    ghost predicate Valid()
      reads this, buf
    {
      && opt.NoWrap()
      && opt.pack <= buf.Length <= opt.Hard() && pos <= buf.Length
      && at.Valid() && |at.stream| == at.consumed + pos && buf[..pos] == at.Rest()
      && (opt.Shrink() >= 2 ==> Paid(buf.Length))
    }

    // Growing is paid for by the bytes received since the last resizing, shrinking by the growing
    // since the last shrinking.
    ghost predicate Paid(size: nat)
      reads this
    {
      && received0 <= |at.stream| && grown0 <= grown
      && grown <= 2 * received0 && 2 * shrunk <= 3 * grown0
      && (size < opt.Hard() ==> 2 * (size - pos) + 2 * (|at.stream| - received0) >= size)
      && (size > opt.Shrink() ==> 2 * (grown - grown0) >= size)
    }

    constructor (options: Options)
      ensures opt == options && at == START && pos == 0 && buf.Length == options.pack && fresh(buf)
      ensures Valid() <==> options.NoWrap()
    {
      opt := options;
      buf := new char[options.pack];
      pos, at := 0, Cursor([], 0);
      grown, shrunk, received0, grown0 := 0, 0, 0, 0;
    }

    // All the copying done by resizing costs at most five bytes for every byte received.
    lemma CopyingIsAmortised()
      requires Valid() && (opt.shrink >= 2 || opt.pack >= 2)
      ensures grown + shrunk <= 5 * |at.stream|
    {
    }

    // std::vector::resize, with reallocation.
    method Resize(size: nat)
      modifies `buf
      ensures fresh(buf) && buf.Length == size
      ensures forall i :: 0 <= i < size && i < old(buf.Length) ==> buf[i] == old(buf[i])
    {
      var a, b := new char[size], buf;
      for i := 0 to Min(size, b.Length)
        invariant forall j :: 0 <= j < i ==> a[j] == b[j]
      {
        a[i] := b[i];
      }
      buf := a;
    }

    // Makes room for at least one byte, unless the buffer is full at its limit.
    method Reserve() returns (ec: Ec)
      requires Valid()
      modifies this
      ensures Valid() && at == old(at) && pos == old(pos) && (buf == old(buf) || fresh(buf))
      ensures ec == if old(pos) == (if opt.hard >= opt.pack then opt.hard else opt.pack) then Overflow else NoError
      ensures ec.NoError? ==> pos < buf.Length && (buf.Length <= opt.hard || buf.Length <= opt.pack)
      ensures ec.NoError? && pos == old(buf.Length) ==>
                buf.Length == if 2 * old(buf.Length) <= opt.hard then 2 * old(buf.Length) else opt.hard
      ensures ec.Overflow? || pos < old(buf.Length) ==> buf == old(buf)
      ensures buf.Length != old(buf.Length) ==>
                old(buf.Length) == pos < buf.Length && grown == old(grown) + old(buf.Length)
                && (opt.Shrink() >= 2 ==> 2 * (|at.stream| - old(received0)) >= old(buf.Length))
    {
      ec := NoError;
      if pos >= buf.Length {
        if buf.Length >= opt.Hard() {
          ec := Overflow;
        } else {
          Grow();
        }
      }
    }

    method Grow()
      requires Valid() && pos == buf.Length < opt.Hard()
      modifies this
      ensures Valid() && at == old(at) && pos == old(pos) && fresh(buf)
      ensures old(buf.Length) < buf.Length && grown == old(grown) + old(buf.Length)
      ensures buf.Length == if 2 * old(buf.Length) <= opt.hard then 2 * old(buf.Length) else opt.hard
      ensures opt.Shrink() >= 2 ==> 2 * (|at.stream| - old(received0)) >= old(buf.Length)
    {
      GrowsExactly(buf.Length, opt.Hard());
      ghost var size := buf.Length;
      Resize(Grown(buf.Length, opt.Hard()));
      grown, received0 := grown + size, |at.stream|;
    }

    // What read_some puts behind the unconsumed bytes.
    method Fill(bytes: Bytes)
      requires pos + |bytes| <= buf.Length
      modifies buf
      ensures buf[..pos + |bytes|] == old(buf[..pos]) + bytes
    {
      for i := 0 to |bytes|
        invariant forall j :: 0 <= j < pos ==> buf[j] == old(buf[j])
        invariant forall j :: pos <= j < pos + i ==> buf[j] == bytes[j - pos]
      {
        buf[pos + i] := bytes[i];
      }
      ghost var all := old(buf[..pos]) + bytes;
      assert forall j :: 0 <= j < |all| ==> buf[j] == all[j];
      assert buf[..pos + |bytes|] == all;
    }

    // The copy of the unconsumed bytes to the front.  The ranges may overlap; it runs upwards.
    method Compact(consume: nat, left: nat)
      requires consume + left <= buf.Length
      modifies buf
      ensures buf[..left] == old(buf[consume..consume + left])
    {
      for i := 0 to left
        invariant forall j :: 0 <= j < i ==> buf[j] == old(buf[consume + j])
        invariant forall j :: consume + i <= j < consume + left ==> buf[j] == old(buf[j])
      {
        buf[i] := buf[consume + i];
      }
      ghost var was := old(buf[consume..consume + left]);
      assert forall j :: 0 <= j < left ==> buf[j] == was[j];
      assert buf[..left] == was;
    }

    // Gives memory back when little is left in a large buffer, which must have grown since the last time.
    method ShrinkIfIdle()
      requires Valid()
      modifies this
      ensures Valid() && at == old(at) && pos == old(pos) && (buf == old(buf) || fresh(buf))
      ensures var shrink := if opt.shrink >= opt.pack then opt.shrink else opt.pack;
        buf.Length == if old(buf.Length) >= shrink + shrink / 2 && pos <= shrink / 2 then shrink else old(buf.Length)
      ensures buf.Length != old(buf.Length) && opt.Shrink() >= 2 ==> old(grown) > old(grown0) && grown0 == grown
      ensures shrunk == if buf == old(buf) then old(shrunk) else old(shrunk) + buf.Length
    {
      if buf.Length >= ShrinkAt(opt.Shrink()) && pos <= opt.Shrink() / 2 {
        assert ShrinkAt(opt.Shrink()) == opt.Shrink() + opt.Shrink() / 2;
        Resize(opt.Shrink());
        assert buf[..pos] == at.Rest();
        shrunk, grown0, received0 := shrunk + opt.Shrink(), grown, |at.stream|;
      }
    }

    // One call of the receive callback, after `bytes` have come in.  It is offered exactly the bytes of
    // the stream that have not been consumed.
    method Deliver(bytes: Bytes, cb: Bytes -> int) returns (ec: Ec)
      requires Valid() && Callback(cb) && pos + |bytes| <= buf.Length
      modifies this, buf
      ensures Valid() && (buf == old(buf) || fresh(buf))
      ensures ec == if cb(old(at).Rest() + bytes) < 0 then ParseError else NoError
      ensures at == if ec.NoError? then Offer(cb, old(at), bytes) else old(at)
    {
      Fill(bytes);
      assert buf[..pos + |bytes|] == at.Rest() + bytes;
      var consume := cb(buf[..pos + |bytes|]);
      if consume == -1 {
        assert buf[..pos] == (at.Rest() + bytes)[..pos];
        ec := ParseError;
      } else {
        Consume(bytes, consume);
        ShrinkIfIdle();
        ec := NoError;
      }
    }

    // Drops what has been consumed of the unconsumed bytes and those that have just come in.
    method Consume(bytes: Bytes, consume: nat)
      requires opt.NoWrap() && opt.pack <= buf.Length <= opt.Hard() && pos + |bytes| <= buf.Length
      requires at.Valid() && |at.stream| == at.consumed + pos && (opt.Shrink() >= 2 ==> Paid(buf.Length))
      requires buf[..pos + |bytes|] == at.Rest() + bytes && consume <= pos + |bytes|
      modifies buf, this`pos, this`at
      ensures Valid() && at == Cursor(old(at).stream + bytes, old(at).consumed + consume)
    {
      ghost var after := Cursor(at.stream + bytes, at.consumed + consume);
      RestAfter(at, bytes, consume);
      assert after.Rest() == buf[consume..pos + |bytes|];
      Compact(consume, pos + |bytes| - consume);
      pos, at := pos + |bytes| - consume, after;
    }

    // Without a callback the bytes just pile up.
    method PileUp(bytes: Bytes)
      requires Valid() && pos + |bytes| <= buf.Length
      modifies this, buf
      ensures Valid() && buf == old(buf) && at == Cursor(old(at).stream + bytes, old(at).consumed)
    {
      Fill(bytes);
      pos, at := pos + |bytes|, Cursor(at.stream + bytes, at.consumed);
    }

    // One iteration of the loop of goReceive; `room` is what read_some is told, and `called` whether bytes have
    // come in for the callback.
    method Iterate(read: nat -> Incoming, cb: Option<Bytes -> int>)
      returns (ec: Ec, called: bool, ghost room: nat)
      requires Valid() && Socket(read) && Callback(Consumer(cb))
      modifies this, buf
      ensures Valid() && (buf == old(buf) || fresh(buf))
      ensures ec.Overflow? <==> old(pos) == if opt.hard >= opt.pack then opt.hard else opt.pack
      ensures if ec.Overflow? then at == old(at) && pos == old(pos)
              else 0 < room && (old(pos) + room <= opt.hard || old(pos) + room <= opt.pack) && Follows(read(room), Consumer(cb), old(at), ec, at)
                   && called == (read(room).Got? && read(room).bytes != [])
      ensures ec.Overflow? ==> !called
    {
      ec := Reserve();
      called, room := false, 0;
      if ec.NoError? {
        room := buf.Length - pos;
        ec, called := Handle(read(buf.Length - pos), cb);
      }
    }

    // What is done with what read_some answers.
    method Handle(answer: Incoming, cb: Option<Bytes -> int>) returns (ec: Ec, called: bool)
      requires Valid() && Callback(Consumer(cb)) && (answer.Got? ==> pos + |answer.bytes| <= buf.Length)
      modifies this, buf
      ensures Valid() && (buf == old(buf) || fresh(buf))
      ensures Follows(answer, Consumer(cb), old(at), ec, at) && called == (answer.Got? && answer.bytes != [])
      ensures !ec.Overflow?
    {
      ec, called := NoError, false;
      match answer
      case Error(code) => ec := System(code);
      case Got(bytes) =>
        called := |bytes| > 0;
        if |bytes| > 0 && cb.Some? {
          ec := Deliver(bytes, cb.value);
        } else if |bytes| > 0 {
          PileUp(bytes);
        }
    }

    // goReceive, for as many answers of the socket as are given, or until an error; `rooms` are the sizes
    // read_some was told before, and cbs(n) is what the callback does when it is called for the n-th time.
    // What the buffer stands for is what an unbounded stream would be after the same chunks.
    method GoReceive(answers: seq<nat -> Incoming>, cbs: nat -> Option<Bytes -> int>)
      returns (ec: Ec, ghost rooms: seq<nat>)
      requires Valid() && Callbacks(cbs) && forall i :: 0 <= i < |answers| ==> Socket(answers[i])
      modifies this, buf
      ensures Valid() && AllGot(answers, rooms)
      ensures Accepts(cbs, 0, old(at), Chunks(answers, rooms))
      ensures at == Feed(cbs, 0, old(at), Chunks(answers, rooms))
      ensures EndsWith(answers, rooms, cbs, at, ec)
      ensures ec.Overflow? ==> pos == if opt.hard >= opt.pack then opt.hard else opt.pack
    {
      ec, rooms := NoError, [];
      var i, n := 0, 0;
      while i < |answers| && ec.NoError?
        invariant Valid() && (buf == old(buf) || fresh(buf)) && AllGot(answers, rooms)
        invariant Accepts(cbs, 0, old(at), Chunks(answers, rooms))
        invariant at == Feed(cbs, 0, old(at), Chunks(answers, rooms))
        invariant ec.NoError? ==> |rooms| == i <= |answers| && n == |Chunks(answers, rooms)|
        invariant !ec.NoError? ==> EndsWith(answers, rooms, cbs, at, ec)
        invariant ec.Overflow? ==> pos == if opt.hard >= opt.pack then opt.hard else opt.pack
        decreases |answers| - i
      {
        ghost var room, before := 0, at;
        var called;
        ec, called, room := Iterate(answers[i], cbs(n));
        if ec.NoError? {
          OneMore(cbs, old(at), Chunks(answers, rooms), answers[i](room), before, at);
          ChunksOfOneMore(answers, rooms, room);
          rooms := rooms + [room];
          n := if called then n + 1 else n;
        }
        i := i + 1;
      }
    }
  }

  // How the loop ends: after all answers, or with an error at the next one.
  ghost predicate EndsWith(answers: seq<nat -> Incoming>, rooms: seq<nat>, cbs: nat -> Option<Bytes -> int>,
                           at: Cursor, ec: Ec)
    requires AllGot(answers, rooms) && Callbacks(cbs) && at.Valid()
  {
    match ec
    case NoError => |rooms| == |answers|
    case Overflow => |rooms| < |answers|
    case _ => |rooms| < |answers| && Fails(answers[|rooms|], Consumer(cbs(|Chunks(answers, rooms)|)), at, ec)
  }

  // What an answer of read_some leads to.
  ghost predicate Follows(answer: Incoming, cb: Bytes -> int, before: Cursor, ec: Ec, after: Cursor)
    requires Callback(cb) && before.Valid()
  {
    match answer
    case Error(code) => ec == System(code) && after == before
    case Got(bytes) =>
      if bytes == [] then ec.NoError? && after == before
      else if cb(before.Rest() + bytes) < 0 then ec.ParseError? && after == before
      else ec.NoError? && after == Offer(cb, before, bytes)
  }

  // Some answer of read_some leads to this error.
  ghost predicate Fails(read: nat -> Incoming, cb: Bytes -> int, at: Cursor, ec: Ec)
    requires Callback(cb) && at.Valid()
  {
    exists room: nat :: 0 < room && Follows(read(room), cb, at, ec, at)
  }

  ghost predicate AllGot(answers: seq<nat -> Incoming>, rooms: seq<nat>) {
    |rooms| <= |answers| && forall i :: 0 <= i < |rooms| ==> rooms[i] > 0 && answers[i](rooms[i]).Got?
  }

  // The non-empty reads.
  ghost function Chunks(answers: seq<nat -> Incoming>, rooms: seq<nat>): seq<Bytes>
    requires AllGot(answers, rooms)
  {
    if rooms == [] then []
    else
      var n := |rooms| - 1;
      var bytes := answers[n](rooms[n]).bytes;
      With(Chunks(answers, rooms[..n]), bytes)
  }

  lemma OneMore(cbs: nat -> Option<Bytes -> int>, start: Cursor, chunks: seq<Bytes>, answer: Incoming,
                before: Cursor, after: Cursor)
    requires Callbacks(cbs) && start.Valid() && Accepts(cbs, 0, start, chunks)
    requires before == Feed(cbs, 0, start, chunks) && answer.Got?
    requires Follows(answer, Consumer(cbs(|chunks|)), before, NoError, after)
    ensures Accepts(cbs, 0, start, With(chunks, answer.bytes))
    ensures after == Feed(cbs, 0, start, With(chunks, answer.bytes))
  {
    if answer.bytes != [] {
      FeedOne(cbs, 0, start, chunks, answer.bytes);
    }
  }

  function With(chunks: seq<Bytes>, bytes: Bytes): seq<Bytes> { if bytes == [] then chunks else chunks + [bytes] }

  lemma ChunksOfOneMore(answers: seq<nat -> Incoming>, rooms: seq<nat>, room: nat)
    requires AllGot(answers, rooms) && |rooms| < |answers| && room > 0 && answers[|rooms|](room).Got?
    ensures AllGot(answers, rooms + [room])
    ensures Chunks(answers, rooms + [room]) == With(Chunks(answers, rooms), answers[|rooms|](room).bytes)
  {
    assert (rooms + [room])[..|rooms|] == rooms;
  }
}
