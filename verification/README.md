# libgonet: the TCP session, the server registry, the options and the endpoints

This project models the stateful core of libgonet, a coroutine network library, and proves what it promises: no
message is torn, lost or completed twice; a session is closed exactly once; the receive buffer behaves like an unbounded
stream; the registry never exceeds its limit; options reach exactly the nodes they should; a printed endpoint parses
back. Where the code does not meet such a promise on all inputs, the exact condition is proved, with an example.

## The session

`SendMachine` is a labelled step system. The actors are the sender coroutine `goSend`, the receiver coroutine
`goReceive`, the user's calls (`Send`, both overloads of `SendNoDelay`, `Shutdown`), and the send timers. A label names
the actor that moves and carries what the outside world answers: how many bytes a write took, which error a read or a
poll gave. A run is any sequence of labels; `Reaches(c, ls, s)` says that the run `ls` ends in state `s`.

- Every iteration of every loop of `goSend` is a step of its own, and so are the setting and the testing of each shutdown
  flag and each step of `OnClose`. User callbacks run inside these loops, so what they do is a step of another actor
  taken between two steps of the sender. `send_mtx_` is held there, as in the code.
- `Config.window` says whether others may run while `goSend` is between releasing `send_mtx_` at the end of its loop body
  and retaking it (`libgonet/tcp_detail.cpp:319` and `190`). Coroutines do not switch there unless they run on several
  threads. `goSend` itself never sets `sending_`, so with `window` a `SendNoDelay` can write between two halves of
  another message: `TearingRun` is such a run, and `NoTearingExactly` says that this is the only way. `Config.guard` is
  a stricter `SendNoDelay`, which also requires an empty send list; it closes the gap.
- `msg_id_` is not initialised in the code; the model numbers the accepted messages from zero, and uses the number to
  tell which message a timer or a completion is about.
- `History` keeps what only proofs need: the bytes on the wire, the original bytes of each accepted message, and the log
  of completions with the number of bytes that were on the wire at that moment.

`CloseProtocol`, `ShutdownOrder`, `Conservation`, `WireSafety` with `NoTearing`, and `Fifo` each prove one invariant to be
kept by every step. `SessionRuns` combines them; `SessionTheorems`, `Trace`, `Timers`, `TooLate`, `PartialWrite`, `Wakeup`
and `Drain` hold the results. `Trace` and `Timers` say from the labels of a run alone what the user has handed over, what
the socket has taken, why the session closes, and which messages have timed out. The results about the wire, and those of `TooLate` and `Drain`, are about configurations in which nothing is torn; all others hold in every
configuration.

`TcpSession.Session` is the session as an object: the fields of the class, `goSend` with its nested loops, and the API
methods. The ghost field `run` records the steps taken by all actors, and `Valid` says that replaying them gives the
fields as they are: a method that adds one label to `run` has the effect of that step and no other, and every result
about runs holds of the object at all times. At each place where other coroutines may run, `goSend` performs a sequence
of their steps that its caller has chosen freely.

## The other parts

- `RecvBuffer`: the array of `goReceive`, which doubles, is compacted in place and shrinks, with the 32-bit arithmetic of
  the code written out, and the stream with a cursor that it stands for.
- `ServerRegistry`: the sessions of a server under full interleaving of accept handlers, calls of `Shutdown` and closing
  sessions; `TcpServer.Server` is the object.
- `OptionsForest`: `OptionsBase` objects with parent and child pointers, the setters, `Link`, `Unlink`, the destructor;
  `OptionsPrograms` runs any sequence of these operations.
- `Url`: the table of protocols, `endpoint::to_string`, and `endpoint::from_string` with the backtracking match of its
  pattern.

## Where the code and its intent differ

- With several threads a message can be torn (`SessionTheorems.NoTearingExactly`).
- A message that `SendNoDelay` has left half-sent while `goSend` is blocked on the empty channel stays there until
  something else is queued; while nobody asks it to stop, this is the only case in which the sender alone does not
  finish (`Drain.DrainsUnlessStalled`).
- A receiver that shuts down while the channel is full does not get its message through to the sender, which then
  sleeps until the user calls `Shutdown`, unless a write fails before (`Drain.StopsUnlessLost`). A write does fail once
  `ShutdownRecv` has shut down the socket's sending half; but none is made if all that waits has timed out.
- An empty receive buffer does not grow, one of 2^31 bytes or more is cut instead of doubled, and the shrink threshold
  can wrap (`RecvBuffer.GrowsExactly`, `RecvBuffer.ShrinksExactly`).
- Setting an option on a linked node takes it out of step with its parent (`OptionsForest.OptionsBase.SetOption`).
- A path that contains something like another URL is not parsed back (`Url.RoundTripExactly`).

## Model

| member | source | states |
|---|---|---|
| `SessionTheorems.NoTearingExactly` | libgonet/tcp_detail.cpp:173-475 | in all reachable states the wire is the messages completed with success, in completion order, then a proper prefix of at most one other message, if and only if nobody can call SendNoDelay between two rounds of goSend, or it requires an empty list, or the socket is SSL |
| `SessionTheorems.NothingTorn` | libgonet/tcp_detail.cpp:173-475 | the same for one run: the cut message is the half-sent head of the list or one the close has given up; bytes of the last writev that the retire loop has not reached follow |
| `SessionTheorems.TearingRun` | libgonet/tcp_detail.cpp:190-319 | a run in which SendNoDelay writes between two halves of another message, as goSend has released the lock without setting sending_ |
| `NoTearing.InvStep` | libgonet/tcp_detail.cpp:173-510 | every step of every actor keeps the accounting of the wire: only the head of the list may be half-sent, every position lies within its buffer, the gathered buffers are the front of the list, and no more is to be retired than there is |
| `NoTearing.NothingQueuedBefore` | libgonet/tcp_detail.cpp:372-383 | whenever SendNoDelay gets the lock and finds sending_ false, the send list is empty and no write is being accounted for |
| `WireSafety.HalfSentOk` | libgonet/tcp_detail.cpp:395-474 | what either overload of SendNoDelay keeps of a half-sent message, the whole buffer with a position or the tail with position zero, has exactly the unwritten bytes left |
| `SessionTheorems.VerdictsMatchCounts` | libgonet/tcp_detail.cpp:214-345 | a message is reported as sent exactly when all its original bytes were written, as timed out only when none was, as shut down only when a proper prefix was |
| `SessionTheorems.CountsMatchWire` | libgonet/tcp_detail.cpp:173-475 | the counts the verdicts are judged by are true: the wire consists of the counted prefixes of the completed messages and of what the send list accounts for |
| `Trace.AcceptedAreHandedOver` | libgonet/tcp_detail.cpp:353-510 | read off the labels of the run alone: the accepted messages are, byte for byte and in order, those of the calls that were neither empty, nor refused for a shutdown, nor too many for the channel, and those not written at once have been queued |
| `Trace.WireIsWhatWasTaken` | libgonet/tcp_detail.cpp:266-475 | the wire is as long as the writes of goSend and SendNoDelay were told the socket had taken |
| `Trace.EveryReadIsDelivered` | libgonet/tcp_detail.cpp:99-113 | the receive callback has been called exactly once for every successful read |
| `Trace.ReasonIsTheFirst` | libgonet/tcp_detail.cpp:323-327 | the close reason is that of the first failed read, write or poll, or of the first Shutdown, in the run; zero if there was none |
| `Timers.MarkedExactly` | libgonet/tcp_detail.cpp:493-498 | in every run a waiting message is marked as timed out exactly if its own timer has fired, and only such messages are completed with ec_send_timeout |
| `TooLate.NeverSent` | libgonet/tcp_detail.cpp:214-240 | once the timer of a message has fired before any of it was gathered or written, no byte of it gets on the wire in any continuation, and it is never reported as sent |
| `SessionTheorems.ExactlyOnePlace` | libgonet/tcp_detail.cpp:193-351 | every accepted message is at all times in exactly one of channel, send list, hand of goSend and completed messages, any other in none; so Done reports it at most once |
| `Conservation.InvStep` | libgonet/tcp_detail.cpp:193-510 | every step of every actor moves a message from one place to another or takes a new one in, and neither loses nor doubles one |
| `SessionTheorems.AllCompletedAtDisconnect` | libgonet/tcp_detail.cpp:329-351 | when the disconnect callback is called, every accepted message has been completed exactly once |
| `SessionTheorems.FrozenAfterDisconnect` | libgonet/tcp_detail.cpp:329-351 | afterwards, whatever the actors do, no byte is written, no message accepted or completed, and no session callback called |
| `SessionTheorems.OneClose` | libgonet/tcp_detail.cpp:153-351 | the events are connect, receives, disconnect, at most one disconnect and exactly one once both coroutines have ended; none before both halves are shut down; its reason is the first that turned up in the run, and not zero |
| `CloseProtocol.InvStep` | libgonet/tcp_detail.cpp:153-351 | the flag protocol of ShutdownSend and ShutdownRecv with every read and write a step: whoever is in OnClose has seen both flags, one runner at most is past try_lock, and while both flags are set and nobody has closed somebody still will |
| `SessionTheorems.FirstReasonStays` | libgonet/tcp_detail.cpp:323-327 | the first reason given to SetCloseEc stays for ever, so IsEstab does not become true again |
| `SessionTheorems.GracefulShutdown` | libgonet/tcp_detail.cpp:140-224 | once goSend has taken a shutdown message, every accepted message is completed or in the send list, and the close gives up at most c_multi + 1 messages |
| `ShutdownOrder.InvStep` | libgonet/tcp_detail.cpp:140-224 | no data message is ever behind a shutdown message in the channel, and none is queued once one has been taken |
| `SessionTheorems.BatchBound` | libgonet/tcp_detail.cpp:190-254 | the send list never exceeds c_multi, plus one while sending_ is set; no buffer is filled out of range although timed-out messages are erased on the way; a batch is the whole list, or c_multi messages of it, and not empty |
| `SessionTheorems.FetchesAll` | libgonet/tcp_detail.cpp:190-224 | goSend stops fetching for a batch only when the channel is empty, the list is full, or a shutdown message was taken |
| `SessionTheorems.IdleWritesAtOnce` | libgonet/tcp_detail.cpp:204-207 | while goSend is blocked on the channel, SendNoDelay may write by itself if and only if no half-sent message is in the list |
| `SessionTheorems.FirstInFirstOut` | libgonet/tcp_detail.cpp:191-318 | of the messages queued through Send those accepted first are sent first, and all that still wait were accepted after all that were sent |
| `Fifo.InvStep` | libgonet/tcp_detail.cpp:191-510 | every step of every actor keeps the queued messages, across channel, hand and send list, in the order of their acceptance |
| `PartialWrite.TakesExactly` | libgonet/tcp_detail.cpp:304-318 | after a write of n bytes the retire loop completes, in their order, exactly the messages that lie within them and advances the next one |
| `PartialWrite.LosesExactly` | libgonet/tcp_detail.cpp:304-318 | what was to be written loses exactly its first n bytes, and only the head may be half-sent again |
| `PartialWrite.KeepsOrder` | libgonet/tcp_detail.cpp:304-318 | completed and remaining messages together are the list as it was; the remaining ones keep their order and, but for the first, all their fields |
| `PartialWrite.AfterEveryWrite` | libgonet/tcp_detail.cpp:256-318 | all of this applies after every write of every run: the loop never runs out of messages with bytes left over |
| `Drain.DrainsUnlessStalled` | libgonet/tcp_detail.cpp:181-319 | with no new calls, and whatever number of bytes, but at least one, the socket takes each time: from some step on goSend has got rid of everything that waited, in at most one write a byte, if and only if it was not already blocked on the channel with a half-sent message in the list |
| `Drain.ComesToRest` | libgonet/tcp_detail.cpp:181-351 | left alone with such a socket, goSend ends or comes to the blocking read from every state of every run, shutdown and close included, with no more writes than there are bytes to write and with an empty list, unless it was blocked already |
| `Drain.StaysAtRest` | libgonet/tcp_detail.cpp:204-207 | however long it goes on, the sender alone then writes nothing more and changes nothing |
| `Drain.StalledStays` | libgonet/tcp_detail.cpp:204-207 | a blocked goSend with a half-sent message does not move by itself |
| `Drain.StalledReachable` | libgonet/tcp_detail.cpp:395-410 | such a state is reached: SendNoDelay writes one byte of two while goSend is blocked |
| `Drain.StopsUnlessLost` | libgonet/tcp_detail.cpp:140-224 | after Shutdown, or after ShutdownRecv has returned, and as long as no write fails, the sender alone comes to its end, if and only if the user has called Shutdown, or the message of ShutdownRecv was not lost to a full channel, or goSend was stopping anyway |
| `Wakeup.NeverSleepsThrough` | libgonet/tcp_detail.cpp:140-224 | in all runs a goSend blocked on an empty channel has not been asked to stop by Shutdown, and if ShutdownRecv has returned, its message was lost to a full channel |
| `SessionRecord.RecordedReaches` | libgonet/tcp_detail.cpp:173-351 | what a session object records is a run of the step system, so that the results about runs hold of the object |
| `TcpSession.Session.constructor` | libgonet/tcp_detail.cpp:34-49 | a new session is in the initial state: empty queues, no flag set, sending_ false |
| `TcpSession.Session.GoStart` | libgonet/tcp_detail.cpp:57-66 | the connect callback is called and both coroutines are dispatched |
| `TcpSession.Session.Send` | libgonet/tcp_detail.cpp:477-510 | empty data is answered at once, exactly a session that is shutting down refuses, exactly a full channel overflows; anything else is queued whole at the end, and nothing else changes |
| `TcpSession.Session.SendNoDelay` | libgonet/tcp_detail.cpp:353-475 | writes at once only without SSL, with the lock free and sending_ false: then the written bytes are on the wire, and the rest, if there is any, is left at the head of the list with sending_ set; otherwise queues like Send; success is reported at once exactly for empty data and for a complete write, a refusal exactly when shutting down, an overflow exactly when it could not write and the channel is full |
| `TcpSession.Session.Shutdown` | libgonet/tcp_detail.cpp:140-151 | ec_shutdown becomes the reason unless there is one, the flag is set, a shutdown message is queued at the end |
| `TcpSession.Session.SetCloseEc` | libgonet/tcp_detail.cpp:323-327 | only the first reason is taken |
| `TcpSession.Session.FireTimer` | libgonet/tcp_detail.cpp:493-498 | a timer marks its own message as timed out wherever it is, in channel, list or hand, and changes nothing else about it and no other message |
| `TcpSession.Session.ReceiverStep` | libgonet/tcp_detail.cpp:99-171 | a read delivers data, or makes its error the reason unless there is one; ShutdownRecv sets its flag, tests the other, and closes or queues a shutdown message, one access to shared data at a time |
| `TcpSession.Session.CloseStep` | libgonet/tcp_detail.cpp:329-351 | one step of OnClose: try_lock, one message of the channel, one of the list, the disconnect callback |
| `TcpSession.Session.FetchOne` | libgonet/tcp_detail.cpp:193-224 | one round of the fetch loop: takes a message, stops with a full batch, stops for initiative_shutdown_, or clears sending_ and waits without the lock |
| `TcpSession.Session.FetchLoop` | libgonet/tcp_detail.cpp:193-224 | the loop ends only with a batch to send, with a shutdown message taken, or in ShutdownSend |
| `TcpSession.Session.GatherLoop` | libgonet/tcp_detail.cpp:227-254 | the loop leaves with the buffers holding exactly the unsent bytes of the first messages of the list, or back to the start if there is nothing to write |
| `TcpSession.Session.RoomForNext` | libgonet/tcp_detail.cpp:242-243 | buffers[buffer_size] is always within the vector as it was sized before the loop |
| `TcpSession.Session.WriteLoop` | libgonet/tcp_detail.cpp:256-302 | writes once, again after an interruption, after a poll while the socket is full; does not poll once a shutdown message was taken; an error ends in ShutdownSend |
| `TcpSession.Session.RetireLoop` | libgonet/tcp_detail.cpp:304-318 | accounts for the n bytes written while other actors run in the callbacks, and ends with the lock released |
| `TcpSession.Session.ShutdownSend` | libgonet/tcp_detail.cpp:153-159 | sets the flag and runs OnClose if the other half is down; send_shutdown_ is set afterwards |
| `TcpSession.Session.OnClose` | libgonet/tcp_detail.cpp:329-351 | goes through try_lock, channel, list and disconnect in that order and returns |
| `TcpSession.Session.Round` | libgonet/tcp_detail.cpp:183-319 | one round of the outer loop leads back to its start with the lock free, or to ShutdownSend with the lock held |
| `TcpSession.Session.GoSend` | libgonet/tcp_detail.cpp:173-321 | whatever socket, timers, users and receiver do meanwhile, goSend does what the step system says and nothing on the wire is torn; the steps of the others in the run are exactly those the environment had them take, in that order, and the answers used are its answers; it returns only with send_shutdown_ set |
| `RecvBuffer.GrowsExactly` | libgonet/tcp_detail.cpp:90-97 | a full buffer below its limit grows, within the limit, if and only if it is neither empty nor of 2^31 bytes or more |
| `RecvBuffer.ShrinksExactly` | libgonet/tcp_detail.cpp:115-118 | shrinking never enlarges a buffer if and only if the threshold of one and a half times the shrink size fits 32 bits |
| `RecvBuffer.NoWrapExactly` | libgonet/tcp_detail.cpp:37-39 | the options are sound if and only if every buffer that may have to grow does, within the limit, and none is enlarged by shrinking |
| `RecvBuffer.ChunkingDoesNotMatter` | libgonet/tcp_detail.cpp:86-126 | for a receive callback that consumes a + b as it consumes a and then the rest of a with b, wherever it does not answer -1: two ways of cutting the same stream, to neither of which it answers -1, end with the same bytes consumed and left |
| `RecvBuffer.FeedConsumes` | libgonet/tcp_detail.cpp:103-124 | however the stream is cut, as long as it accepts all it is offered, what such a callback has consumed is what it consumes of the whole stream at once |
| `RecvBuffer.FramesAreIncremental` | README.md:46-55 | the usual callback, which takes as many whole messages of n bytes as there are and answers -1 to bytes that are not allowed, is one of these |
| `RecvBuffer.Receiver.constructor` | libgonet/tcp_detail.cpp:34-49 | the buffer starts with max_pack_size_ bytes and nothing consumed, whatever the options; the invariant of the receiver holds exactly if the limits, each at least max_pack_size_, keep the 32-bit computations from wrapping |
| `RecvBuffer.Receiver.Reserve` | libgonet/tcp_detail.cpp:90-97 | read_some has at least one free byte, or the overflow error is given, exactly if as many unconsumed bytes are held as the larger of max_pack_size_hard_ and max_pack_size_; a growth doubles the size within that limit, keeps the content and follows at least half its cost in received bytes |
| `RecvBuffer.Receiver.Compact` | libgonet/tcp_detail.cpp:111-113 | the unconsumed bytes are moved to the front although the ranges may overlap |
| `RecvBuffer.Receiver.ShrinkIfIdle` | libgonet/tcp_detail.cpp:115-120 | shrinks to the larger of max_pack_size_shrink_ and max_pack_size_ exactly when the buffer is one and a half times that and at most half of that is left; never cuts buffered bytes, and never shrinks twice without a growth in between |
| `RecvBuffer.Receiver.Deliver` | libgonet/tcp_detail.cpp:105-121 | the callback is offered exactly the bytes of the stream that have not been consumed; -1 gives the parse error |
| `RecvBuffer.Receiver.Iterate` | libgonet/tcp_detail.cpp:86-136 | one iteration with all its outcomes: overflow, socket error, nothing read, bytes consumed, parse error, no callback |
| `RecvBuffer.Receiver.GoReceive` | libgonet/tcp_detail.cpp:80-138 | over any sequence of reads, and whatever the callback does each time it is called, the buffer is what an unbounded stream with a cursor would be after the same chunks, and the loop ends exactly with the first error |
| `RecvBuffer.Receiver.CopyingIsAmortised` | libgonet/tcp_detail.cpp:90-120 | all bytes copied by growing and shrinking are at most five times the bytes received |
| `ServerRegistry.InvReachable` | libgonet/tcp_detail.cpp:573-664 | with every access to shutdown_, the mutex and sessions_ a step: one holder of the mutex at most, the registry holds exactly the sessions inserted and not erased, and a call of Shutdown has told all it has been through |
| `ServerRegistry.NobodyAfterShutdown` | libgonet/tcp_detail.cpp:573-582 | after a call of Shutdown has returned no session is ever inserted, and all that are in the registry have been shut down |
| `ServerRegistry.ErasedByOwnClose` | libgonet/tcp_detail.cpp:653-664 | a session leaves the registry only by its own OnSessionClose |
| `ServerRegistry.RegistryIsExact` | libgonet/tcp_detail.cpp:623-664 | while the mutex is free the registry holds exactly the sessions registered whose close has not taken them out |
| `TcpServer.Server.Admit` | libgonet/tcp_detail.cpp:623-649 | a session is registered exactly if the server is not shut down and below its limit, and is shut down otherwise |
| `TcpServer.Server.Shutdown` | libgonet/tcp_detail.cpp:573-582 | the flag is set before the mutex is taken, and every registered session is shut down |
| `TcpServer.Server.OnSessionClose` | libgonet/tcp_detail.cpp:653-664 | takes out exactly the session that closes |
| `OptionsForest.OptionsBase.Set` | libgonet/option.h:111-187 | a setter is applied to exactly the nodes of the subtree, and terminates |
| `OptionsForest.OptionsBase.SetOption` | libgonet/option.h:111-187 | if every linked node had the options of its parent, this is still so exactly if the setter was applied to a root or changed nothing |
| `OptionsForest.OptionsBase.OnLink` | libgonet/option.h:103-109 | all nodes of the subtree get the options of its top, and no other node changes |
| `OptionsForest.OptionsBase.LinkOptions` | libgonet/option.h:85-92 | linking a root that is not above keeps the forest well-formed, gives its whole subtree the options of the new parent, and keeps every linked node in step with its parent |
| `OptionsForest.OptionsBase.Unlink` | libgonet/option.h:94-101 | removes the child from the list and clears its parent pointer, and nothing else; the forest stays well-formed, and linked nodes stay in step with their parents |
| `OptionsForest.OptionsBase.Destroy` | libgonet/option.h:76-83 | the destructor takes the node out of its parent's list, frees every child and terminates; all other pointers and lists stay as they are, the other nodes form a forest, and linked nodes stay in step with their parents |
| `OptionsForest.OptionsOfRoot` | libgonet/option.h:85-187 | when linked nodes are in step with their parents, every node has the options of its root |
| `OptionsPrograms.Perform` | libgonet/option.h:76-187 | creating, setting a root, linking, unlinking and destroying each do what they should and keep every linked node in step with its parent |
| `OptionsPrograms.Run` | libgonet/option.h:76-187 | after any sequence of such operations, from nothing, the live nodes form a forest in which each has the options of its root |
| `OptionsForest.SiblingsApart` | libgonet/option.h:103-109 | the subtrees of two children do not meet, so the recursion visits each node once |
| `Url.Str2Proto` | libgonet/abstract.cpp:49-67 | the search of the table finds the protocol of that name, cut at the first NUL, or unkown if there is none |
| `Url.NameParses` | libgonet/abstract.cpp:59-75 | the name of a protocol is found again, and contains neither ':' nor '/' |
| `Url.AtoiOfDecimal` | libgonet/abstract.cpp:140-177 | reading the printed port gives the port |
| `Url.AtoiReads` | libgonet/abstract.cpp:177 | every string of digits is a printed number behind some zeros, and is read as that number |
| `Url.RestIsUnique` | libgonet/abstract.cpp:152 | behind the scheme there is at most one way to match host, port and path, and it is found |
| `Url.FindsPreferred` | libgonet/abstract.cpp:152-158 | if the pattern matches at all, the match found is the greedy one: every other has a shorter scheme or none |
| `Url.PrintMeans` | libgonet/abstract.cpp:130-143 | no scheme is printed for an unknown protocol, name and "://" for any other; host, port without leading zeros, and path follow |
| `Url.ParseMeans` | libgonet/abstract.cpp:145-182 | of the match that is preferred to all others: the host is resolved, or the DNS error given; the port is the number read, cut to 16 bits, or zero; the protocol is the one of that name, or unkown; the path is kept |
| `Url.RefusesExactly` | libgonet/abstract.cpp:147-158 | the parse error is given exactly if the pattern does not match |
| `Url.RoundTripExactly` | libgonet/abstract.cpp:130-182 | for every protocol, host text without ':' and '/', and 16-bit port, parsing the printed endpoint gives it back if and only if the path is empty or begins with '/' and contains no separator behind which host, port and path match again |
| `Url.ParsedPath` | libgonet/abstract.cpp:145-182 | whatever is parsed has a path that is empty or begins with '/' |
| `Url.HiddenUrlExample` | libgonet/abstract.cpp:145-182 | the path "/a://b" is not parsed back |

## Left out

- TcpSession.Session.GoSend: the loop is cut off by a clock, as the code's is endless; until the clock stands at zero it has taken at least one step each time, unless it has returned.
- TcpSession.Session.Send: the test of the flags and the push to the channel are one step, as coroutines do not switch between them; with several threads a message could get behind a shutdown message.
- TcpSession.Session.SendNoDelay: one step with its write, for the same reason; a user callback it calls at once is a step of its own.
- TcpSession.Session.FireTimer: timers fire at any time or never; the value of `sndtimeo_`, the clock and the cancelling of timers are not modelled. A message is a value with an id, where the timer of the code shares the object.
- TcpSession.Session.ReceiverStep: what the receive callback sees is in `RecvBuffer`; here a read is one event.
- TcpSession.Session.WriteLoop: the poll may end at any time; SSL sockets write through the same steps.
- RecvBuffer.Receiver.GoReceive: the receive callback returns -1 or at most the number of bytes offered, as the code's assertion demands; options whose 32-bit computations wrap, and an empty buffer, are excluded, and `GrowsExactly` and `ShrinksExactly` say what happens with them.
- RecvBuffer.Receiver.CopyingIsAmortised: each growth is counted as copying the whole old buffer, which the vector of the code may avoid; for shrink sizes below two the bound is not claimed.
- RecvBuffer.Receiver.Compact: the code uses memcpy on ranges that may overlap; it is taken to copy upwards.
- TcpServer.Server.Admit: runs without interruption; interleavings are the subject of `ServerRegistry`. The limit is fixed while the server runs.
- OptionsForest.OptionsBase.LinkOptions: linking a node that has a parent (an assertion in the code) or that is above this one (an endless recursion) is excluded; `OptionsPrograms` tests for both, where callers of the code have to see to it themselves.
- OptionsForest.OptionsBase.Set: option values are numbers, and the virtual hooks called by the setters are not modelled.
- Url.RoundTripExactly: addresses are represented by their text, and name resolution is a parameter; IPv6 addresses, which contain ':', are excluded.
- Ports with more digits than an int holds, for which atoi is undefined.
- Channel messages are unbounded in memory, up to the capacity 2^64 - 1 the channel is created with.
- Completions are logged even when the user has passed no callback.
- Drain.StopsUnlessLost: the half-shutdown of the socket in ShutdownRecv, which makes later writes fail, is not modelled; writes that succeed are assumed here, and failing writes stop the sender by themselves.
- Half-shutdowns and closing of the socket, the `immediately` flag, SSL handshakes, DNS, accept and poll as system calls.
- TcpClient, FakeSession, network.cpp and its factories: forwarding without state of its own.
- libgonet/udp_detail.cpp: datagrams need no framing, and its shutdown is a simpler form of the one here.
- Shared-pointer lifetimes, `SessionEntry::operator==`, address getters, error texts and debug output.
