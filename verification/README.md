# suduo, verified

This project models suduo, a reactor network library in C++, and proves what its parts are for.
An operation is modelled twice: as a pure step on a value that carries its own history, about which the
properties are proved, and as a method of a class that does what the C++ code does, in the same order and with the
same branches, and is proved to take that step.  The kernel, the scheduler and the peers are free: they appear as
steps with any outcome the system calls allow.  What a step does is then told a second time, from the calls and the
kernel's answers alone, and over whole runs where something is conserved: what the kernel took is the wire, every task
and every caller is somewhere, every timer fires on its schedule, every socket is handed over by its success.

The five groups of results:

* **The byte stream.**  `Buffer.dfy` is the growable array with two indices, `ByteQueue.dfy` proves that it refines a
  plain byte queue, and `Endian.dfy` that its integers are big-endian on any host.  `Codec.dfy` is the length-prefixed
  framing, with its decoding proved sound, complete and independent of chunking.  `Connection.dfy` is the connection
  as a state machine over arbitrary partial writes, refusals and faults and over calls from other threads, whose test,
  write and queueing are separate steps; `Writes.dfy` tells its stream, state and mask from the events,
  `TcpConnection.dfy` is the same on real buffers and `Shutdown.dfy` is about
  when `SHUT_WR` goes out.  `Pipeline.dfy` composes all of it: what the peer's codec emits is a prefix of what was
  sent, and all of it once everything is drained and read.  `Http.dfy` and `HttpRoundTrip.dfy` are the incremental HTTP request parser,
  its independence of chunking and its round trip with printing, and `HttpSession.dfy` is which requests the server
  answers when.  `Chunks.dfy` is the argument both parsers share.
* **Concurrency.**  `EventLoop.dfy` (no lost wakeup), `Condition.dfy` with `CircularBuffer.dfy`, `BlockingQueue.dfy`
  and `ThreadPool.dfy` (nobody stranded), and `AsyncLogger.dfy` with `StreamBuffer.dfy` (no log record lost) are step
  systems: a critical section is one step, condition variables have sleeping and signalled waiters and spurious
  wakeups, and the properties hold over every interleaving.
* **The life of a connection across two loops.**  `Lifecycle.dfy` has any number of loops with their queues of
  functors, polls and dispatches, foreign threads that test a state and write it in two steps, and the destructor;
  `LifecycleStep.dfy` says what each step comes to for one connection and which functor it leaves where, and
  `LifecycleView.dfy` proves that the model and `Connection.dfy` do the same to what they share.
* **Timers.**  `TimerQueue.dfy` is the pair of maps, the one-shot timer fd and the cancel functors;
  `TimerSchedule.dfy` is when each timer fires, told from the calls.
* **Sockets and polling.**  `Channel.dfy` and `PollPoller.dfy` are the event mask, the dispatch and the dense poll
  array; `Connector.dfy` is the retrying client and the ledger of its sockets.

Some properties do not hold of the code without a condition.  Then the condition is part of the statement, and shown
to be exact, with a concrete run where that helps:

* A foreign `shutdown` or `force_close` whose write of the state follows the close, and `start_read` after it, break
  the order of a connection's life.  `Lifecycles.StepKeepsLifeIff` gives the exact condition, and three runs show what
  happens: an erase that finds nothing (`Lifecycles.LateForceCloseErasesNothing`), a destructor that fails its
  assertion (`Lifecycles.LateShutdownFailsDestructor`), a second close (`Lifecycles.LateStartReadClosesTwice`).
  An open connection may then hold bytes and not ask to write (`Connection.LateWriteStopsWriting`);
  `Connection.MaskKeptIff` is exact.
* `SHUT_WR` can be issued twice or overtake a send when other threads call.  `Shutdowns.LoopShutdownOrderlyIff` and
  `Shutdowns.ForeignShutdownOrderlyIff` say exactly when it cannot.
* A functor queued by the loop thread before `loop()` goes unnoticed exactly as long as nothing else happens
  (`EventLoops.NoLostWakeup`), and a `quit()` takes effect exactly if `loop()` has been started
  (`EventLoops.QuitTakesEffectIff`).
* After a bad request line the HTTP server reads on, and fails an assertion exactly if the line had a valid method
  (`Http.AfterBadRequest`).
* Of several HTTP requests that arrive together the server answers one and lets the others wait for more bytes
  (`HttpSessions.LeftWaitingIff`).
* Messages above 65536 bytes are sent but never delivered (`Codec.FramesDeliveredIff`).
* The logger drops the third and later buffers of a batch above 25 (`AsyncLoggers.TrimLosesExactly`), records as long
  as a buffer (`AsyncLoggers.AppendCounts`), and what was appended after the last rotation when its thread exits
  (`AsyncLoggers.CompleteAtExitIff`).
* `stop` leaves in the thread pool's queue all tasks but one for each worker past its test of the flag
  (`ThreadPools.StopHandsOutExactly`, `ThreadPools.AllHandedOutIff`), and a bounded queue with no
  slots moves nothing (`BlockingQueues.NoSlotsMoveNothing`).
* A first update with an empty mask makes `PollPoller` poll the descriptor (`PollPollers.UpdateKeepsInvIff`).
* A connection attempt is sound exactly when the last channel is gone (`Connectors.AttemptIsSoundIff`,
  `Connectors.StartGuardIff`).  A success that meets a `stop` leaves the connector Connected with a closed socket, and
  no other event does (`Connectors.StoppedSuccessSticks`).

What is assumed of the environment, and where it is stated:

* The poller delivers nothing to a channel whose mask was empty when it polled (`Lifecycles.Enabled`,
  `Connection.Legal`).  `PollPoller` arranges this (`PollPollers.WatchedExactly`).
* One dispatch does not both close and read; `Channels.CloseAndReadIff` says exactly which results would.
* A write takes a prefix of what it is offered or fails; a read returns a nonempty prefix of the wire, the end of the
  stream, or an error; a vectored read fills the first buffer before the second.
* Timers are added on the loop's thread and not by timer callbacks (`TimerQueues.Enabled`); the clock does not go back.
* A connector is started only when Disconnected with no retry timer and no `reset_channel` outstanding, and its retry
  timer fires after that functor (`Connectors.Guarded`, shown exact).

Verify with `dafny verify dfyconfig.toml`.

## Model

| member | source | states |
|---|---|---|
| Endian.BigEndianRoundTrip | suduo/net/Endian.h:9-11 | writing a number of any width in big-endian bytes and reading them gives the number back, for every number that fits |
| Endian.FromBigEndianRoundTrip | suduo/net/Endian.h:13-21 | and writing what was read gives the bytes back, so the two are inverse bijections |
| Endian.LittleEndianRoundTrip | suduo/net/Endian.h:9-21 | the same for the little-endian memory image of a host |
| Endian.LittleIsReversedBig | suduo/net/Endian.h:9-21 | the two images are each other reversed |
| Endian.NetworkImageIsBigEndian | suduo/net/Endian.h:9-11 | on a host of either byte order, the memory image of host_to_network(x) is the big-endian image of x |
| Endian.LoadedNetworkInteger | suduo/net/Endian.h:13-21 | on either host, loading n bytes into an integer and converting it with network_to_host reads them as big-endian |
| Endian.ConversionsCancel | suduo/net/Endian.h:9-21 | network_to_host undoes host_to_network on either host, within range |
| Endian.DecodeEncodeInt | suduo/net/Buffer.h:88-156 | a signed integer of any width survives encoding to bytes and decoding, over its whole range |
| Endian.EncodeDecodeInt | suduo/net/Buffer.h:102-142 | every byte string is the encoding of the signed integer it decodes to |
| Buffers.CompactionMovesLeft | suduo/net/Buffer.h:197-207 | make_space compacts only when the read index is above 8, so its copy always moves left, and there is room for the new bytes afterwards |
| Buffers.FirstCrlfStable | suduo/net/Buffer.h:24-27 | bytes that arrive later never move a CR LF that is already in the buffer |
| Buffers.Buffer.constructor | suduo/net/Buffer.h:19-22 | a fresh buffer is empty with 8 reserved bytes before and 1024 writeable after |
| Buffers.Buffer.FindCrlf | suduo/net/Buffer.h:24-27 | finds the first CR LF of the readable bytes and no other, or says there is none |
| Buffers.Buffer.Retrieve | suduo/net/Buffer.h:42-48 | drops the first len readable bytes, or everything with the indices back at 8 when len reaches the end |
| Buffers.Buffer.RetrieveAll | suduo/net/Buffer.h:54-57 | empties the buffer and puts both indices back at 8 |
| Buffers.Buffer.RetrieveAsString | suduo/net/Buffer.h:59-63 | returns the first len readable bytes and drops exactly them |
| Buffers.Buffer.RetrieveAllAsString | suduo/net/Buffer.h:64-66 | returns everything readable and leaves nothing |
| Buffers.Buffer.ToString | suduo/net/Buffer.h:183-185 | returns the readable bytes and changes nothing |
| Buffers.Buffer.Unwrite | suduo/net/Buffer.h:86 | drops bytes at the writing end only |
| Buffers.Buffer.Compact | suduo/net/Buffer.h:200-206 | the ascending overlapping copy within the array keeps every readable byte |
| Buffers.Buffer.MakeSpace | suduo/net/Buffer.h:197-207 | grows or compacts; the readable bytes stay and there is room for len more |
| Buffers.Buffer.EnsureWriteableBytes | suduo/net/Buffer.h:78-82 | after it len bytes fit, whatever was there is still there |
| Buffers.Buffer.Append | suduo/net/Buffer.h:68-73 | the readable bytes are extended by exactly the given bytes |
| Buffers.Buffer.Prepend | suduo/net/Buffer.h:157-161 | the given bytes come before the readable ones, within the reserved space |
| Buffers.Buffer.Swap | suduo/net/Buffer.h:187-191 | two buffers exchange their whole contents |
| Buffers.Buffer.Shrink | suduo/net/Buffer.h:163-168 | the contents survive the move into a new array with the wanted reserve |
| Buffers.Buffer.ReadFd | suduo/net/Buffer.cpp:16-36 | the scatter read into the tail and the 65536-byte overflow appends exactly the bytes read; an error changes nothing and is reported |
| Buffers.Buffer.AppendInt | suduo/net/Buffer.h:88-100 | appends the big-endian bytes of a signed integer on a host of either byte order |
| Buffers.Buffer.PrependInt | suduo/net/Buffer.h:144-156 | prepends them |
| Buffers.Buffer.PeekInt | suduo/net/Buffer.h:123-142 | reads the leading bytes as a signed big-endian integer and changes nothing |
| Buffers.Buffer.ReadInt | suduo/net/Buffer.h:102-121 | the same, and drops exactly these bytes |
| ByteQueue.StepRefinesQueue | suduo/net/Buffer.h:42-208 | every operation acts on the readable bytes and answers as on a plain byte queue that has no array, no indices and no capacity |
| ByteQueue.RunRefinesQueue | suduo/net/Buffer.h:42-208 | refinement over any legal run: same bytes, same outputs, and the indices stay ordered within the array |
| ByteQueue.ReservedPrefixKept | suduo/net/Buffer.h:157-161 | over any run without prepend there are always 8 bytes to prepend into, so prepending a header is always legal |
| ByteQueue.AppendedIntegersReadBack | suduo/net/Buffer.h:88-142 | any list of integers of mixed widths appended behind anything reads back in order and leaves nothing |
| ByteQueue.PrependedIntegerReadsBack | suduo/net/Buffer.h:144-156 | a prepended integer reads back and reading it restores the buffer |
| ByteQueue.RetrievalMovesIndex | suduo/net/Buffer.h:42-57 | a retrieval moves the read index by its length, or back to 8 when it empties the buffer |
| ByteQueue.GrowsIffNeeded | suduo/net/Buffer.h:197-207 | the array grows if and only if the free bytes but for the reserved prefix do not suffice, and then to what is needed |
| ByteQueue.ShrunkHasReserve | suduo/net/Buffer.h:163-168 | a shrunk buffer has its reserved prefix, room for the reserve, and no more than it needs |
| Codec.HeaderIsInt | suduo/bench/zeromq/codec.h:25-27 | the length field is the signed 32-bit big-endian integer at the front |
| Codec.DecodeSound | suduo/bench/zeromq/codec.h:20-41 | the input is exactly the frames of the delivered messages followed by what is left, and what is left is a bad header or an unfinished frame |
| Codec.DecodeComplete | suduo/bench/zeromq/codec.h:20-41 | there is no other way to read the input so: decoding is its one reading |
| Codec.DecodeChunk | suduo/bench/zeromq/codec.h:20-41 | decoding what was left together with the next bytes continues the decoding of the whole |
| Codec.FeedContinues | suduo/bench/zeromq/codec.h:20-41 | one call per chunk: the receiver is always where decoding all bytes so far would put it |
| Codec.ChunksDoNotMatter | suduo/bench/zeromq/codec.h:20-41 | for every byte string and every way to cut it, the messages, the rest and the verdict are those of the whole string |
| Codec.DecodePrefix | suduo/bench/zeromq/codec.h:20-51 | having seen any beginning of the frames of a list, the receiver has delivered a beginning of the list and found nothing bad |
| Codec.FramesDeliveredIff | suduo/bench/zeromq/codec.h:20-51 | a list of messages is delivered intact, in order and with nothing left, if and only if all of them have at most 65536 bytes |
| Codec.FrameDeliveredIff | suduo/bench/zeromq/codec.h:28-51 | a message is delivered intact if and only if it has at most 65536 bytes, including sizes whose 32-bit length wraps |
| Codec.RestIsUnfinished | suduo/bench/zeromq/codec.h:24-39 | what is left over is a length field outside 0 to 65536, which is what the verdict says, or fewer bytes than a field, or fewer than the field announces |
| Codec.LengthHeaderCodec.OnMessage | suduo/bench/zeromq/codec.h:20-41 | the loop on a real buffer emits exactly the decoded messages, leaves exactly the undecoded bytes, and calls shutdown once iff a header is bad |
| Codec.LengthHeaderCodec.Turn | suduo/bench/zeromq/codec.h:24-39 | one turn: takes the front frame iff it is complete, shuts down iff the length is out of range, else changes nothing |
| Codec.LengthHeaderCodec.Send | suduo/bench/zeromq/codec.h:44-51 | the payload given to the connection is the frame of the message |
| Connection.StepConserves | suduo/net/TcpConnection.cpp:73-298 | every handler, every call on any thread and every kernel answer keeps: wire followed by output buffer is the accepted payloads in order; no condition on the callers |
| Connection.OutputConserved | suduo/net/TcpConnection.cpp:103-298 | hence in every reachable state of every run |
| Connection.MaskKeptIff | suduo/net/TcpConnection.cpp:132-144 | while not Disconnected the channel writes iff something is buffered, and a Disconnected one asks for nothing: every event keeps this, a foreign write of the state if and only if the connection is not Disconnected or nothing is buffered, start_read if and only if the connection is open |
| Connection.MaskTracksBuffer | suduo/net/TcpConnection.cpp:132-298 | hence over every run that keeps to that condition |
| Connection.LateWriteStopsWriting | suduo/net/TcpConnection.cpp:147-152 | a run that does not: a shutdown whose write falls behind the close leaves an open connection with bytes buffered that never asks to write |
| Connection.CloseAssertionHolds | suduo/net/TcpConnection.cpp:287-290 | the assertion in handle_close holds in every run that keeps the mask, in which the poller reports only nonempty masks |
| Connection.AcceptedAreHandedMinusLost | suduo/net/TcpConnection.cpp:103-145 | over every run the accepted payloads are those handed to the connection, by calls on its loop and by queued sends as they run, minus exactly the lost ones: those that find it not open, the peer gone (EPIPE, ECONNRESET), or that are empty and could not be written |
| Connection.QueuedSendsRunInOrder | suduo/net/TcpConnection.cpp:73-97 | over every run the sends of other threads run in the order in which they were queued, each once; the ones missing are those still queued |
| Connection.HistoryGrows | suduo/net/TcpConnection.cpp:103-145 | the wire is only extended and an event accepts at most its own payload, behind all others |
| Connection.HighWaterExactly | suduo/net/TcpConnection.cpp:133-138 | over every run the high-water notices are exactly the upward crossings of the mark by the buffered length, each with the length reached |
| Connection.WriteCompleteAfterEveryByte | suduo/net/TcpConnection.cpp:112-119 | over every run, with whatever callers: an event that queues write-complete leaves every accepted byte on the wire |
| Connection.WriteCompleteExactly | suduo/net/TcpConnection.cpp:112-119 | over every run there are at most as many write-complete notices as events that leave nothing buffered after taking a payload or draining, and in a run that keeps the mask exactly as many |
| Connection.WriteCompleteIff | suduo/net/TcpConnection.cpp:267-273 | while the mask is right, the events that queue one are exactly those |
| Writes.WritableTakes | suduo/net/TcpConnection.cpp:261-267 | handle_write: of the buffered bytes exactly those the kernel took leave the buffer, and they are the next on the wire; the rest waits |
| Writes.StepTakes | suduo/net/TcpConnection.cpp:103-285 | any event: what the kernel took of what it was offered goes on the wire, and with what stays buffered it is what was buffered followed by the payload the event adds |
| Writes.WireIsTaken | suduo/net/TcpConnection.cpp:103-285 | over every run the wire is the first n bytes of each offer that the kernel answered with n, direct sends included, told from the events; with what is still buffered that is every payload handed over and not lost |
| Writes.InputIsRead | suduo/net/TcpConnection.cpp:246-252 | over every run the input is extended by exactly the bytes read, in order |
| Writes.StateChanges | suduo/net/TcpConnection.cpp:147-298 | the state changes in exactly three ways: established, begun to close, closed; and a close takes both interests away |
| Writes.ReadingChanges | suduo/net/TcpConnection.cpp:203-234 | reading is asked for from the establishment or start_read until stop_read or the close |
| Writes.WritingChanges | suduo/net/TcpConnection.cpp:132-144 | writing is asked for as soon as a send leaves bytes in the buffer and given up with the last byte or the close; nothing else changes it |
| Writes.CallersOwe | suduo/net/TcpConnection.cpp:73-176 | a call on another thread owes its write of the state after its test, and its functor after that |
| Writes.ShutsExactly | suduo/net/TcpConnection.cpp:147-160 | SHUT_WR is issued by exactly these events: a shutdown on the loop or its functor while nothing is being written, and the draining of a Disconnecting connection; at the end of the wire |
| Shutdowns.LoopShutdownOrderlyIff | suduo/net/TcpConnection.cpp:147-160 | in every reachable Connected state, a shutdown on the loop thread leads to at most one SHUT_WR, overtaking no send and with no byte after it, over every continuation, if and only if no bytes of a send from another thread are under way and no other thread is between its test and its write |
| Shutdowns.ForeignShutdownOrderlyIff | suduo/net/TcpConnection.cpp:147-160 | in every reachable state, the write of a shutdown on another thread, however late, does so if and only if nothing is buffered, no bytes of a send are under way, SHUT_WR has not been issued and no other call of shutdown is under way |
| Shutdowns.SettledStaysOrderly | suduo/net/TcpConnection.cpp:103-298 | the invariant behind it, over every continuation: the SHUT_WR issued, due from a functor and due from draining are together at most one |
| Shutdowns.EachPendingShuts | suduo/net/TcpConnection.cpp:147-160 | and its converse: with the buffer drained, every shutdown under way issues one, whatever is queued before it |
| Shutdowns.DrainingShuts | suduo/net/TcpConnection.cpp:267-277 | draining the buffer of a Disconnecting connection issues one itself |
| Shutdowns.QueuedSendsShut | suduo/net/TcpConnection.cpp:99-145 | a queued send that the socket refuses is buffered, and draining it issues one before the functor does |
| Shutdowns.LeftBehindShuts | suduo/net/TcpConnection.cpp:147-160 | bytes left behind by a close make a late shutdown issue one too early |
| Shutdowns.ShutAfterEveryByte | suduo/net/TcpConnection.cpp:154-160 | when it goes out, every accepted byte is on the wire |
| Shutdowns.ForeignShutdownTwice | suduo/net/TcpConnection.cpp:147-152 | the witness for a foreign shutdown: one buffered byte |
| Shutdowns.ForeignSendOvertaken | suduo/net/TcpConnection.cpp:73-84 | the witness for a loop-thread shutdown: one send queued by another thread |
| Shutdowns.FreshIsGraceful | suduo/net/TcpConnection.cpp:30-50 | a new connection is in the state that the next theorem starts from |
| Shutdowns.GracefulShutdown | suduo/net/TcpConnection.cpp:147-160 | with callers on the loop thread only, over every run from there: at most once, only with every accepted byte on the wire, no byte afterwards, and issued once shutdown was asked for and the output drained |
| TcpConnections.TcpConnection.constructor | suduo/net/TcpConnection.cpp:30-50 | a new connection is Connecting with empty buffers and an empty mask |
| TcpConnections.TcpConnection.SendInLoop | suduo/net/TcpConnection.cpp:103-145 | on the real buffers: the direct write, the fault, the partial write and the buffering are the state machine step for that write result |
| TcpConnections.TcpConnection.WriteAtOnce | suduo/net/TcpConnection.cpp:112-130 | tries the socket only when nothing waits before the payload; a write-complete notice iff it took all |
| TcpConnections.TcpConnection.BufferRest | suduo/net/TcpConnection.cpp:132-144 | queues the rest behind the buffered bytes, raises a notice iff the mark is crossed, asks for write events |
| TcpConnections.TcpConnection.Send | suduo/net/TcpConnection.cpp:73-84 | on the loop thread; ignored unless Connected |
| TcpConnections.TcpConnection.SendBuffer | suduo/net/TcpConnection.cpp:86-97 | the same for a buffer, which is emptied iff the connection took it |
| TcpConnections.TcpConnection.Check | suduo/net/TcpConnection.cpp:73-176 | the test of a call on another thread |
| TcpConnections.TcpConnection.Commit | suduo/net/TcpConnection.cpp:148-149 | the write of the state that may come arbitrarily later |
| TcpConnections.TcpConnection.PostCall | suduo/net/TcpConnection.cpp:147-168 | an undisturbed call on another thread: the functor is queued iff the test passes, and the state is written first by a shutdown or close |
| TcpConnections.TcpConnection.PostSend | suduo/net/TcpConnection.cpp:73-84 | a copy of the string is queued iff Connected |
| TcpConnections.TcpConnection.PostBuffer | suduo/net/TcpConnection.cpp:91-95 | a copy of the buffer is queued and the buffer emptied iff Connected |
| TcpConnections.TcpConnection.Shutdown | suduo/net/TcpConnection.cpp:147-152 | on the loop thread: the state is written and SHUT_WR issued at once iff nothing is being written |
| TcpConnections.TcpConnection.ShutdownInLoop | suduo/net/TcpConnection.cpp:154-160 | SHUT_WR iff the channel is not writing |
| TcpConnections.TcpConnection.ForceClose | suduo/net/TcpConnection.cpp:162-168 | a queued close iff the connection is open |
| TcpConnections.TcpConnection.ForceCloseInLoop | suduo/net/TcpConnection.cpp:178-184 | closes iff still open |
| TcpConnections.TcpConnection.HandleClose | suduo/net/TcpConnection.cpp:287-298 | Disconnected with an empty mask |
| TcpConnections.TcpConnection.RunPosted | suduo/net/TcpConnection.cpp:73-184 | the oldest functor runs, and only it |
| TcpConnections.TcpConnection.HandleWrite | suduo/net/TcpConnection.cpp:261-285 | takes the step Writable of the state machine, of which Writes.WritableTakes and Writes.WireIsTaken say that it drops exactly what the socket took; when drained, stops asking, notifies and completes a pending shutdown |
| TcpConnections.TcpConnection.OutputDrained | suduo/net/TcpConnection.cpp:268-277 | the part of it after the last byte |
| TcpConnections.TcpConnection.HandleRead | suduo/net/TcpConnection.cpp:246-259 | appends exactly the bytes read, closes an open connection on end of stream, and asks for the message callback iff bytes arrived |
| TcpConnections.TcpConnection.ConnectEstablished | suduo/net/TcpConnection.cpp:226-234 | Connecting becomes Connected and reading is asked for |
| TcpConnections.TcpConnection.ConnectDestroyed | suduo/net/TcpConnection.cpp:236-244 | a connection still Connected is closed first; one that is Disconnecting is left as it is |
| TcpConnections.TcpConnection.StartReadInLoop | suduo/net/TcpConnection.cpp:207-213 | reading afterwards, whatever the flags were |
| TcpConnections.TcpConnection.StopReadInLoop | suduo/net/TcpConnection.cpp:218-224 | not reading afterwards |
| Pipeline.EndToEnd | suduo/bench/zeromq/codec.h:20-51 | over every schedule of sends from any thread, shutdowns, closes, partial and refused writes, faults and reads: the peer has emitted a prefix of the messages accepted, and all of them once the sender has drained and the wire is read |
| Pipeline.SentIsReceived | suduo/bench/zeromq/codec.h:20-51 | with no fault and nobody shutting down or closing, whatever else happens (incoming data, start_read and stop_read, sends from other threads): the peer has emitted a prefix of the messages given to codec.send, and all of them once drained and read |
| Pipeline.ForeignMessagesInOrder | suduo/bench/zeromq/codec.h:20-51 | messages sent from other threads are among them in the order in which they were queued; only those still queued are missing |
| Pipeline.MovesKeepInv | suduo/bench/zeromq/codec.h:20-51 | the invariant behind it: the peer is where decoding the bytes it has read puts it, and the payloads are frames of short messages |
| Pipeline.SendThroughCodec | suduo/bench/zeromq/codec.h:44-51 | codec.send on real objects takes the sender's step with the frame of the message |
| Pipeline.ReceiveThroughCodec | suduo/net/TcpConnection.cpp:246-252 | handle_read with the codec as callback is one feeding of the decoder, on real buffers, whatever was left in the input buffer |
| Lifecycles.StepKeepsInvIff | suduo/net/TcpServer.cpp:57-95 | each connection is in one phase of its life with exactly one functor queued, on the right loop, that moves it on: a step of any thread keeps this if and only if it is guarded |
| Lifecycles.LivesInOrder | suduo/net/TcpServer.cpp:57-95 | over every guarded interleaving of base loop, I/O loops and foreign callers, each connection is established, closed, erased with result 1, destroyed and freed, in this order and each at most once; every assertion holds, the destructor's included, and every channel update and removal is legal for the poller |
| Lifecycles.SettledMapIsExact | suduo/net/TcpServer.cpp:81-95 | with all queues empty, the map holds exactly the connections not Disconnected, and each Disconnected one has been destroyed |
| Lifecycles.StepKeepsLifeIff | suduo/net/TcpServer.cpp:57-95 | what follows from it: a step keeps every connection's life in order and every assertion, over every guarded continuation, if and only if it is guarded itself |
| Lifecycles.CommitKeepsInvIff | suduo/net/TcpConnection.cpp:147-168 | the write of the state by a foreign shutdown or force_close keeps the invariant if and only if the connection is not Disconnected at that moment |
| Lifecycles.ReadingKeepsInvIff | suduo/net/TcpConnection.cpp:207-224 | start_read does if and only if the connection is not Disconnected; stop_read then, or before the destruction, or when reading was stopped already |
| Lifecycles.ForcedCloseInOrderIff | suduo/net/TcpConnection.cpp:162-184 | what follows from it: the functor of a force close keeps the order of life if and only if the connection was not Disconnected at the write |
| Lifecycles.LateForceCloseErasesNothing | suduo/net/TcpServer.cpp:86-92 | a run without that guard: a second close, and an erase that returns 0 |
| Lifecycles.LateShutdownFailsDestructor | suduo/net/TcpConnection.cpp:52-56 | a run with a late shutdown: the map forgets a connection that is not Disconnected and its destructor's assertion fails |
| Lifecycles.LateStartReadClosesTwice | suduo/net/TcpConnection.cpp:203-213 | a run in which start_read after the close gets the closed channel polled and closed again |
| Lifecycles.CloseKeepsInv | suduo/net/TcpConnection.cpp:287-298 | a close leaves exactly one removal for the base loop, or on the base loop erases at once and leaves exactly one destruction |
| Lifecycles.EraseKeepsInv | suduo/net/TcpServer.cpp:86-95 | whoever runs the removal finds the map entry, and leaves exactly one destruction for the connection's loop |
| Lifecycles.DestroyKeepsInv | suduo/net/TcpConnection.cpp:236-244 | the channel is removed with an empty mask and still registered |
| Lifecycles.ReleaseKeepsInv | suduo/net/TcpConnection.cpp:52-56 | when nothing refers to a destroyed connection any more, its destructor finds it Disconnected |
| Lifecycles.AcceptKeepsInv | suduo/net/TcpServer.cpp:57-79 | a new connection has a new id, so it overwrites no map entry and has no functors |
| Lifecycles.TcpServer.NewConnection | suduo/net/TcpServer.cpp:57-79 | enters the connection under the next id and establishes it on its loop, at once or through that loop's queue; the invariant holds |
| Lifecycles.TcpServer.RunOne | suduo/net/EventLoop.cpp:168-179 | the head of a loop's queue is taken and run by the handlers; the invariant holds and nothing else is consumed |
| LifecycleSteps.ConnectionBecomes | suduo/net/TcpConnection.cpp:226-298 | every step of the server does to every connection what it becomes by itself, an independent definition: state, mask, registration and marks; and takes exactly the erased one from the map |
| LifecycleSteps.NewConnection | suduo/net/TcpServer.cpp:57-79 | a new connection is in the map, and established at once on the base loop or by a functor on its own |
| LifecycleSteps.CloseDoes | suduo/net/TcpServer.cpp:81-95 | a close leaves the erasing to the base loop, unless it runs there, and then the destruction to its own |
| LifecycleSteps.RunDoes | suduo/net/TcpConnection.cpp:178-298 | what each of the four functors does and leaves behind, and on which loop |
| LifecycleSteps.WaitingMoves | suduo/net/TcpConnection.cpp:162-168 | what is reported and waits, and what other threads are about to do: a forced close owes its functor after its write |
| LifecycleSteps.SoundIff | suduo/net/TcpConnection.cpp:226-298 | no assertion fails in a step if and only if these hold of the connection it is about: Connecting when established, open when closed, in the map when erased, registered when destroyed, Disconnected when freed |
| LifecycleViews.AgreeInEveryRun | suduo/net/TcpConnection.cpp:147-298 | so in every reachable state, whatever the callers do |
| LifecycleViews.HandlersAgree | suduo/net/TcpConnection.cpp:147-298 | the lifecycle model and the byte model of a connection do the same to the state, the reading flag and the mask in every handler and call |
| EventLoops.StepKeepsInv | suduo/net/EventLoop.cpp:73-179 | every step of the loop and of other threads keeps the wakeup invariant |
| EventLoops.NoLostWakeup | suduo/net/EventLoop.cpp:118-127 | in every reachable state about to block in poll with functors pending, the eventfd is positive or a thread is between its push and its wakeup, if and only if anything but the loop thread's own calls before loop() has happened; and a loop told to quit is always woken |
| EventLoops.FunctorsRunInOrder | suduo/net/EventLoop.cpp:168-179 | what ran, the batch and the queue are together exactly what was pushed, in order: nothing is lost, doubled or overtaken |
| EventLoops.TurnRunsAllPending | suduo/net/EventLoop.cpp:168-179 | once a turn reaches its swap, everything pushed before it has run by the end of that turn |
| EventLoops.EarlyPushIsNotAnnounced | suduo/net/EventLoop.cpp:118-127 | the exception is real: a functor queued by the loop thread before loop() waits in poll unannounced |
| EventLoops.QuitTakesEffectIff | suduo/net/EventLoop.cpp:100-108 | a quit from any thread keeps the loop from running over every continuation if and only if loop() had been started |
| EventLoops.QuitLeaves | suduo/net/EventLoop.cpp:73-98 | after it the loop is woken whenever it blocks, and leaves at its next test |
| EventLoops.EarlyQuitIsLost | suduo/net/EventLoop.cpp:73-108 | the witness: a quit before loop() is overwritten |
| EventLoops.PushedAreGiven | suduo/net/EventLoop.cpp:118-179 | over every run the functors that ran, the rest of the batch and the queue are those given to queue_in_loop, on whatever thread, in the order of the pushes |
| EventLoops.WakeupsCounted | suduo/net/EventLoop.cpp:118-166 | reading empties the eventfd; each wakeup counts one, that of the loop thread only while functors are being run, that of another thread always, after its push or its quit |
| EventLoops.TurnInOrder | suduo/net/EventLoop.cpp:73-98 | the turn of the loop: test, poll, dispatch, swap of the whole queue, run; the flag is set by loop() and cleared by quit only |
| EventLoops.EventLoop.DoPendingFunctors | suduo/net/EventLoop.cpp:168-179 | the loop runs exactly the functors that were pending, in order; what they queue themselves waits for the next turn with a wakeup for each |
| EventLoops.EventLoop.QueueInLoop | suduo/net/EventLoop.cpp:118-127 | on the loop thread: push, and wakeup only while functors are being run |
| EventLoops.EventLoop.QueueFromOther | suduo/net/EventLoop.cpp:118-123 | on another thread: the push, with the wakeup still owed |
| EventLoops.EventLoop.ForeignWakeup | suduo/net/EventLoop.cpp:124-126 | the wakeup that is owed |
| EventLoops.EventLoop.Quit | suduo/net/EventLoop.cpp:100-108 | clears the flag; a foreign caller also wakes the loop |
| Http.ParseChunk | suduo/bench/http/HttpContext.cpp:49-88 | bytes that arrive later change nothing that is decided and continue what is not, from every state with a request under way |
| Http.ChunksDoNotMatter | suduo/bench/http/HttpContext.cpp:49-88 | for every byte string and every split, feeding until failure or the whole request gives the same verdict, state, request and unconsumed bytes as feeding it whole |
| Http.AfterBadRequest | suduo/bench/http/HttpServer.cpp:57-71 | the server reads on after a 400: whatever arrives next, the assertion of setMethod then fails if and only if the bad line had a valid method; otherwise the same line is found bad again |
| Http.WaitingRequest | suduo/bench/http/HttpContext.cpp:49-88 | a parser still expecting a request line has not touched the request, which is why setMethod's assertion holds on the next call |
| Http.HttpRequest.SetMethod | suduo/bench/http/HttpRequest.h:36-53 | one of the five methods or none, and says which |
| Http.HttpRequest.AddHeader | suduo/bench/http/HttpRequest.h:95-106 | the field up to the colon maps to the trimmed value, by the two loops of the source |
| Http.HttpRequest.Swap | suduo/bench/http/HttpRequest.h:119-126 | two requests exchange all their fields |
| Http.HttpContext.ProcessRequestLine | suduo/bench/http/HttpContext.cpp:17-46 | sets method, path up to the first question mark, query from it on and version as RequestLine does, which HttpRoundTrip.RequestLineAcceptedIff and RequestLineRead tie to the grammar; fails exactly on the other lines |
| Http.HttpContext.HandleLine | suduo/bench/http/HttpContext.cpp:53-82 | a complete line rejects, continues or finishes the request |
| Http.HttpContext.Turn | suduo/bench/http/HttpContext.cpp:52-86 | a turn that goes on has consumed bytes (so the loop terminates) and leaves the same final result |
| Http.HttpContext.ParseRequest | suduo/bench/http/HttpContext.cpp:49-88 | terminates, with the result of the pure parser on the buffered bytes, from every state in which the assertion of setMethod cannot fail |
| Http.HttpContext.Reset | suduo/bench/http/HttpContext.h:40-44 | the state and request of a new context |
| Http.HttpContext.OnMessage | suduo/bench/http/HttpServer.cpp:57-71 | at most one request is answered, exactly the whole one; the rest stays in the buffer; the next call may be made without failing the assertion if and only if the line was good or its method was invalid |
| HttpSessions.ServeChunk | suduo/bench/http/HttpServer.cpp:57-71 | the whole requests among some bytes, and what is left, continue with the bytes that follow |
| HttpSessions.ReceivedTracks | suduo/bench/http/HttpServer.cpp:57-71 | one call of onMessage answers the oldest whole request that is there, if any, and no other |
| HttpSessions.AnsweredAndWaiting | suduo/bench/http/HttpServer.cpp:57-71 | over every run of onMessage without a bad request, the answered requests followed by those left waiting are exactly the whole requests among the bytes received, in order |
| HttpSessions.LeftWaitingIff | suduo/bench/http/HttpServer.cpp:57-71 | a whole request is left waiting after a call if and only if the bytes hold more than one request beyond those answered before it |
| HttpSessions.OnChunk | suduo/bench/http/HttpServer.cpp:57-71 | on real objects, bytes that arrive and the call of onMessage are one step of the session |
| HttpRoundTrip.PrintParse | suduo/bench/http/HttpContext.cpp:17-88 | parsing any well-formed printed request gives its method, target, version and header map back and leaves exactly what followed it |
| HttpRoundTrip.PrintedInChunks | suduo/bench/http/HttpContext.cpp:49-88 | in whatever chunks it arrives |
| HttpRoundTrip.PrintAllServe | suduo/bench/http/HttpContext.h:40-44 | k concatenated requests, parsed with a reset after each, come out in order and leave nothing over |
| HttpRoundTrip.PipelinedRequestsWait | suduo/bench/http/HttpServer.cpp:57-71 | k requests sent in one chunk: the first is answered, the others wait for more bytes |
| HttpRoundTrip.MeaningKeepsTarget | suduo/bench/http/HttpContext.cpp:25-31 | path followed by query is the target, cut before its first question mark |
| HttpRoundTrip.HeaderMapHolds | suduo/bench/http/HttpRequest.h:95-106 | with distinct names the map holds exactly the printed fields |
| HttpRoundTrip.HeaderRead | suduo/bench/http/HttpRequest.h:95-106 | a printed field line is read as its name and value |
| HttpRoundTrip.RequestLineRead | suduo/bench/http/HttpContext.cpp:17-46 | a printed request line is read as its three parts |
| HttpRoundTrip.HeadersRead | suduo/bench/http/HttpContext.cpp:67-82 | a printed header block is read to its end |
| HttpRoundTrip.Rfc7230WellFormed | suduo/bench/http/HttpContext.cpp:17-88 | every request that is well-formed by sections 3.1.1 and 3.2 of RFC 7230, with the five methods, the two versions, distinct names and trimmed values, is covered |
| HttpRoundTrip.RequestLineAcceptedIff | suduo/bench/http/HttpContext.cpp:17-46 | a line is accepted if and only if it is one of the five methods, SP, a target without SP, SP, and HTTP/1.0 or HTTP/1.1; what the request then holds is RequestLineRead, for every such line |
| HttpRoundTrip.RefusedLineMethod | suduo/bench/http/HttpContext.cpp:21 | a refused line leaves a method in the request if and only if it begins with that method and a space |
| HttpRoundTrip.TextsSpelled | suduo/bench/http/HttpRequest.h:36-53 | the methods, versions and separators spelled in Latin letters |
| HttpRoundTrip.HeaderEndsIff | suduo/bench/http/HttpContext.cpp:70-78 | a header line ends the header if and only if it has no colon, and any other is a field |
| HttpRoundTrip.FieldRead | suduo/bench/http/HttpRequest.h:95-106 | a field with any white space around its value, of the six kinds of isspace, enters the trimmed value under its name |
| Conditions.SignalCounts | suduo/base/Condition.h:25 | waking one sleeper, by a notification or spuriously, moves it to the signalled ones |
| Conditions.NotifyCounts | suduo/base/Condition.h:25 | after a notification nobody sleeps or one more thread is on its way |
| Conditions.NotifyAllWakes | suduo/base/Condition.h:27 | after a broadcast nobody sleeps |
| Conditions.LeaveCounts | suduo/base/Condition.h:29-32 | a waiter that gets the mutex is no longer signalled |
| Conditions.WaitHolds | suduo/base/Condition.h:29-32 | a waiter brings its value: the values in the hands of the waiters, as a multiset over both kinds |
| Conditions.LeaveReleases | suduo/base/Condition.h:29-32 | and takes exactly it along when it has the mutex again |
| Conditions.NotifyHolds | suduo/base/Condition.h:25 | no notification changes what the waiters hold |
| Conditions.NotifyAllHolds | suduo/base/Condition.h:27 | nor does a broadcast |
| CircularBuffers.CircularBuffer.constructor | suduo/base/CircularBuffer.h:14-17 | an empty ring of the given size |
| CircularBuffers.CircularBuffer.Push | suduo/base/CircularBuffer.h:19-24 | appends behind the wrapped contents; on a full ring it is silently dropped |
| CircularBuffers.CircularBuffer.Pop | suduo/base/CircularBuffer.h:26-31 | takes the oldest element and no other |
| CircularBuffers.CircularBuffer.Full | suduo/base/CircularBuffer.h:33 | true iff as many elements as slots |
| CircularBuffers.CircularBuffer.Empty | suduo/base/CircularBuffer.h:34 | true iff there is no element |
| CircularBuffers.CircularBuffer.Capacity | suduo/base/CircularBuffer.h:36 | elements and free slots together are the slots |
| BlockingQueues.StepKeepsInv | suduo/base/BoundedBlockingQueue.h:19-44 | every critical section, wakeup and spurious wakeup keeps the counting invariant |
| BlockingQueues.NeverAllStuck | suduo/base/BoundedBlockingQueue.h:19-44 | in every run sleeping consumers imply that every element is promised to a signalled consumer, sleeping producers that every free slot is to a signalled producer; with slots, they are never all asleep unsignalled |
| BlockingQueues.NoSlotsMoveNothing | suduo/base/BoundedBlockingQueue.h:16-44 | the condition on the slots is exact: with none, nothing is ever pushed or popped, over every run |
| BlockingQueues.NoSlotsGetStuck | suduo/base/BoundedBlockingQueue.h:16-17 | and both sides can be asleep with nobody signalled |
| BlockingQueues.FifoNoLoss | suduo/base/BoundedBlockingQueue.h:19-44 | what was popped followed by what is held is what was pushed, so the ring's silent drop is never reached |
| BlockingQueues.EveryCallIsSomewhere | suduo/base/BoundedBlockingQueue.h:19-44 | over every run no value and no caller is lost: the values given to push are those stored and those that waiting producers hold, and every call of pop got a value or waits |
| BlockingQueues.BoundedBlockingQueue.PushPass | suduo/base/BoundedBlockingQueue.h:19-26 | one pass of push on the real ring: sleeps iff full, else stores and notifies one consumer |
| BlockingQueues.BoundedBlockingQueue.PopPass | suduo/base/BoundedBlockingQueue.h:36-44 | one pass of pop: sleeps iff empty, else returns the oldest and notifies one producer |
| BlockingQueues.BoundedBlockingQueue.ResumePushPass | suduo/base/BoundedBlockingQueue.h:21-23 | a woken producer rechecks before it stores |
| BlockingQueues.BoundedBlockingQueue.ResumePopPass | suduo/base/BoundedBlockingQueue.h:38-40 | a woken consumer rechecks before it takes |
| ThreadPools.StepKeepsInv | suduo/base/ThreadPool.cpp:44-107 | every critical section, stop, test of the flag and spurious wakeup keeps the invariant |
| ThreadPools.TasksInOrder | suduo/base/ThreadPool.cpp:56-92 | over every run the bound holds and tasks are handed out in submission order, each at most once |
| ThreadPools.NobodyStranded | suduo/base/ThreadPool.cpp:56-92 | a sleeping worker means every queued task is promised to a signalled worker, a sleeping submitter the same of free places, and both kinds are never asleep with nobody signalled |
| ThreadPools.StopWakesForGood | suduo/base/ThreadPool.cpp:44-50 | after stop no worker or submitter is asleep or goes back to sleep, and nothing more is queued |
| ThreadPools.StopHandsOutExactly | suduo/base/ThreadPool.cpp:99-107 | over every run after stop the tasks still handed out are the oldest ones, exactly one for each worker that was past the test of the flag and has got its answer since |
| ThreadPools.AllHandedOutIff | suduo/base/ThreadPool.cpp:99-107 | once all workers are gone, every task has been handed out if and only if at the stop no more tasks were queued than workers were past the test; the others never are |
| ThreadPools.StopCanStrandTask | suduo/base/ThreadPool.cpp:99-107 | a run in which a queued task is never handed out, whatever follows |
| ThreadPools.EveryTaskIsSomewhere | suduo/base/ThreadPool.cpp:56-69 | over every run no task is lost or doubled: the tasks given to run are those queued, those refused and those in the hands of submitters that wait; until stop none is refused |
| ThreadPools.RunningRefusesNothing | suduo/base/ThreadPool.cpp:61-65 | no step of a running pool refuses a task, full or not, and only stop ends the running |
| ThreadPools.AskedWorkerGets | suduo/base/ThreadPool.cpp:76-92 | a worker that asks gets the oldest task; without any it sleeps while the pool runs, and goes on empty-handed once it is stopped |
| ThreadPools.WorkersTurn | suduo/base/ThreadPool.cpp:99-107 | a worker goes on while the pool runs or is gone for good, and each step moves only its own worker |
| ThreadPools.SpuriousWakes | suduo/base/Condition.h:29-32 | a spurious wakeup wakes its thread with what it holds and changes nothing else |
| ThreadPools.ThreadPool.RunPass | suduo/base/ThreadPool.cpp:60-68 | one pass of run: sleeps with its task iff full and running, refuses iff stopped, else queues and notifies; by EveryTaskIsSomewhere nothing else becomes of a task |
| ThreadPools.ThreadPool.ResumeRunPass | suduo/base/ThreadPool.cpp:61-63 | a woken submitter rechecks before it queues |
| ThreadPools.ThreadPool.ResumeGetNextTaskPass | suduo/base/ThreadPool.cpp:78-80 | a woken worker rechecks before it takes |
| ThreadPools.ThreadPool.StopAll | suduo/base/ThreadPool.cpp:45-50 | stops and wakes everybody |
| ThreadPools.ThreadPool.GetNextTaskPass | suduo/base/ThreadPool.cpp:77-91 | one pass of get_next_task: sleeps iff empty and running, else hands out the oldest task or none |
| StreamBuffers.StreamBuffer.constructor | suduo/base/LogStream.h:24 | an empty buffer |
| StreamBuffers.StreamBuffer.Append | suduo/base/LogStream.h:26-31 | text is kept whole iff it fits with a byte to spare, by copying into the array, else dropped whole |
| StreamBuffers.StreamBuffer.Availability | suduo/base/LogStream.h:36 | text and free bytes together are the array |
| StreamBuffers.StreamBuffer.Reset | suduo/base/LogStream.h:38 | empty again |
| StreamBuffers.AppendedIff | suduo/base/LogStream.h:26-31 | text is kept whole exactly if it fits with a byte to spare, and otherwise nothing of it |
| AsyncLoggers.StepKeepsInv | suduo/base/AsyncLogger.cpp:31-106 | every critical section and write keeps the invariant and is defined |
| AsyncLoggers.NothingIsLost | suduo/base/AsyncLogger.cpp:31-106 | over every interleaving: the file and the rest of the batch are the kept pieces and the notices, and the kept and dropped pieces followed by the batch, the full buffers and the current one are everything appended, in order; without a batch above 25 buffers nothing is missing; at the loop top both spares are there and empty |
| AsyncLoggers.RecycleNeverEmpty | suduo/base/AsyncLogger.cpp:88-104 | recycling never pops an empty vector, because a missing next buffer implies a full one in the batch |
| AsyncLoggers.AppendCounts | suduo/base/AsyncLogger.cpp:31-48 | a record is kept iff it is shorter than a buffer; a longer one is lost and nothing else is |
| AsyncLoggers.TrimLosesExactly | suduo/base/AsyncLogger.cpp:75-83 | the limit is exact, each time: up to 25 buffers nothing is lost, above exactly the third and later ones, with a notice before the first two |
| AsyncLoggers.ExitLosesExactly | suduo/base/AsyncLogger.cpp:59-107 | once the thread has left its loop, then and at every later moment, the file is the kept pieces and the notices, and lacks exactly the dropped pieces and the records kept since the last rotation |
| AsyncLoggers.CompleteAtExitIff | suduo/base/AsyncLogger.cpp:59-107 | so without a cut the file is complete at the exit if and only if since the last rotation (or the start) no nonempty record shorter than a buffer was appended |
| AsyncLoggers.TurnTakesAll | suduo/base/AsyncLogger.cpp:60-86 | a turn takes every buffer there is and leaves an empty current and a next one |
| AsyncLoggers.AppendedIsGiven | suduo/base/AsyncLogger.cpp:31-48 | over every run, appended, of which the other rows speak, is what the callers gave: all records shorter than a buffer, in order; and the thread is out of its loop only after a stop |
| AsyncLoggers.AppendRotatesIff | suduo/base/AsyncLogger.cpp:33-46 | a record that fits goes behind the current text and nothing else changes; one that does not closes that buffer and begins the next, or is dropped if it is as long as a buffer |
| AsyncLoggers.RotateTakes | suduo/base/AsyncLogger.cpp:67-73 | a rotation takes every buffer, the current one last, and sets empty ones in their place |
| AsyncLoggers.FileGrows | suduo/base/AsyncLogger.cpp:75-86 | the file is only extended, by one buffer of the batch or by the notice of a cut, in the order of the phases of the loop |
| AsyncLoggers.AsyncLogger.Append | suduo/base/AsyncLogger.cpp:31-48 | the caller's critical section |
| AsyncLoggers.AsyncLogger.TestRunning | suduo/base/AsyncLogger.cpp:59 | the loop goes on iff the flag is still set |
| AsyncLoggers.AsyncLogger.Rotate | suduo/base/AsyncLogger.cpp:60-74 | the thread's critical section: the current buffer joins the batch, spares step in |
| AsyncLoggers.AsyncLogger.Trim | suduo/base/AsyncLogger.cpp:75-83 | the notice and the cut |
| AsyncLoggers.AsyncLogger.WriteBatch | suduo/base/AsyncLogger.cpp:84-86 | the loop writes the whole batch in order and nothing else changes |
| AsyncLoggers.AsyncLogger.Recycle | suduo/base/AsyncLogger.cpp:88-104 | refills the spares without popping an empty vector |
| AsyncLoggers.AsyncLogger.Turn | suduo/base/AsyncLogger.cpp:60-105 | a turn without appends in between leaves everything appended in the file |
| TimerQueues.StepKeepsInv | suduo/net/TimerQueue.cpp:74-194 | every operation keeps order, agreement of the maps and timeliness of the fd |
| TimerQueues.MapsAgree | suduo/net/TimerQueue.cpp:106-145 | over every run the id map is exactly the inverse index of the ordered map, and they have the same size |
| TimerQueues.FdIsTimely | suduo/net/TimerQueue.cpp:25-90 | over every run with timers queued, the fd is readable or armed for no later than the earliest expiry or 100 microseconds after the arming, whichever is later, although cancelling never re-arms it |
| TimerQueues.ArmDeadline | suduo/net/TimerQueue.cpp:25-53 | the delay computation amounts to that maximum, truncation included |
| TimerQueues.FiresExactlyTheDue | suduo/net/TimerQueue.cpp:147-194 | handle_read runs exactly the timers with expiry not after now, once each in key order, keeps the others, and puts back exactly the repeating ones at now plus interval |
| TimerQueues.FiringsAt | suduo/net/TimerQueue.cpp:161-167 | the k-th firing is that of the k-th due timer |
| TimerQueues.FiringsAreActive | suduo/net/TimerQueue.cpp:161-167 | only timers in the id map fire |
| TimerQueues.CancelledNeverFires | suduo/net/TimerQueue.cpp:106-118 | an id whose cancel functor has run never fires again, over every continuation |
| TimerQueues.InsertAgrees | suduo/net/TimerQueue.cpp:120-145 | inserting keeps order and agreement, and the first entry is the earlier one |
| TimerQueues.EraseAgrees | suduo/net/TimerQueue.cpp:106-118 | erasing by (expiry, id) removes exactly one entry and keeps agreement |
| TimerQueues.SizesAgree | suduo/net/TimerQueue.cpp:117 | which is the source's assertion on the sizes |
| TimerQueues.AddedMembers | suduo/net/TimerQueue.cpp:74-90 | the queue gains exactly Timer(id, when, interval) under the next id, in both maps |
| TimerQueues.CancelTakesOnly | suduo/net/TimerQueue.cpp:106-118 | the timer of this id leaves both maps and no other does |
| TimerQueues.ReadQuiets | suduo/net/TimerQueue.cpp:147-194 | after handle_read the fd is not readable for an old arming |
| TimerQueues.TimerQueue.constructor | suduo/net/TimerQueue.cpp:57-66 | no timers, the fd disarmed, ids from 1 |
| TimerQueues.TimerQueue.Insert | suduo/net/TimerQueue.cpp:120-145 | a sorted insert by a search from the front, and whether the earliest expiry changed |
| TimerQueues.TimerQueue.AddTimer | suduo/net/TimerQueue.cpp:74-90 | adds Timer(id, when, interval) under a new id, by AddedMembers exactly it; re-arms iff the earliest expiry changed |
| TimerQueues.TimerQueue.Cancel | suduo/net/TimerQueue.cpp:100-104 | queues the functor |
| TimerQueues.TimerQueue.CancelInLoop | suduo/net/TimerQueue.cpp:106-118 | removes the timer from both maps iff it is active; the sizes agree |
| TimerQueues.TimerQueue.RunExpired | suduo/net/TimerQueue.cpp:155-168 | the loop runs the due timers in key order and takes them out of both maps |
| TimerQueues.TimerQueue.Reset | suduo/net/TimerQueue.cpp:175-194 | puts the repeating ones back and re-arms for the earliest |
| TimerQueues.TimerQueue.HandleRead | suduo/net/TimerQueue.cpp:147-173 | all of it, in this order |
| TimerQueues.TimerQueue.ResetTimerFd | suduo/net/TimerQueue.cpp:43-53 | arms for the expiry, at least 100 microseconds ahead |
| TimerSchedules.FiringsOnSchedule | suduo/net/TimerQueue.cpp:147-194 | over every run, told from the calls: every firing is of a timer that was added, at its due time then (the time it was added for, later an interval after it last ran) or after it, never early; and of a one-shot timer it is the first |
| TimerSchedules.QueueHoldsTheRest | suduo/net/TimerQueue.cpp:74-194 | and the queue holds exactly the timers that were added and whose cancel functor has not run, but for one-shot ones that have fired: a repeating timer that is not cancelled stays, with its interval and its due time |
| TimerSchedules.NeverEarly | suduo/net/Timer.h:29-35 | a due time is never before the time the timer was added for |
| Channels.CloseAndReadIff | suduo/net/Channel.cpp:41-57 | a dispatch both closes and reads exactly on POLLHUP without POLLIN but with POLLPRI or POLLRDHUP |
| Channels.CloseComesFirst | suduo/net/Channel.cpp:41-60 | a close comes before the other callbacks of the dispatch, and once |
| Channels.DispatchExactly | suduo/net/Channel.cpp:41-60 | each callback is made if and only if its bits are reported and the tied object lives |
| Channels.DispatchInOrder | suduo/net/Channel.cpp:41-60 | close, error, read, write, each at most once |
| Channels.HasBit | suduo/net/Channel.cpp:41-58 | the test of a bit of the reported events, for any bits above and below it |
| Channels.AskedExactly | suduo/net/Channel.h:47-66 | a request changes the bit it names, or both to nothing |
| Channels.Channel.constructor | suduo/net/Channel.cpp:10-18 | an empty mask, no slot |
| Channels.Channel.Rewrite | suduo/net/Channel.h:47-66 | the mask after enabling or disabling reading, writing or all |
| Channels.Channel.HandleEvent | suduo/net/Channel.cpp:26-36 | a dead tied object gets no callbacks |
| Channels.Channel.HandleEventWithGuard | suduo/net/Channel.cpp:38-62 | the callbacks run in the order close, error, read, write, each iff its bits are set |
| PollPollers.UpdateKeepsInvIff | suduo/net/poller/PollPoller.cpp:49-85 | an update keeps the table in order if and only if a first update asks for something |
| PollPollers.UpdateRefines | suduo/net/poller/PollPoller.cpp:49-85 | an update sets the channel's interest and no other |
| PollPollers.RemoveRefines | suduo/net/poller/PollPoller.cpp:87-118 | swap-remove forgets the removed descriptor and nothing else |
| PollPollers.RunRefines | suduo/net/poller/PollPoller.cpp:33-118 | after any legal run of updates and removals: slots and channels are in bijection, every index names its own slot, and the table stands for the abstract map of interests |
| PollPollers.WatchedExactly | suduo/net/poller/PollPoller.cpp:54-83 | the slots poll looks at are exactly the nonempty interests |
| PollPollers.ReportsEachReadyOnce | suduo/net/poller/PollPoller.cpp:33-47 | with an event count equal to the number of ready slots, each ready channel is reported exactly once and no other |
| PollPollers.ReadyMembers | suduo/net/poller/PollPoller.cpp:33-47 | the reported descriptors are exactly the ready ones |
| PollPollers.ReadyDistinct | suduo/net/poller/PollPoller.cpp:33-47 | and none twice |
| PollPollers.PollPoller.UpdateChannel | suduo/net/poller/PollPoller.cpp:49-85 | files or rewrites the slot; the source's assertions are its preconditions |
| PollPollers.PollPoller.Follow | suduo/net/Channel.h:47-66 | a channel that changes its mask and updates its poller changes its own interest and no other |
| PollPollers.PollPoller.RemoveChannel | suduo/net/poller/PollPoller.cpp:87-118 | the swap-remove on real channels, telling the moved one its new slot |
| PollPollers.PollPoller.FillActiveChannels | suduo/net/poller/PollPoller.cpp:33-47 | the loop reports the channels of the first ready slots, each told its own events |
| Connectors.StepKeepsInv | suduo/net/Connector.cpp:27-171 | every call, functor, timer and event keeps: one socket held exactly while Connecting, at most one timer, at most one dying channel |
| Connectors.SocketsAccountedFor | suduo/net/Connector.cpp:32-171 | over every guarded run each created socket is held by the channel of a Connecting connector, or was closed once, or was handed over once, and never two of these; no assertion fails |
| Connectors.RetriesBackOff | suduo/net/Connector.cpp:158-167 | the k-th retry since construction or restart waits min(500 * 2^k, 30000) ms |
| Connectors.AttemptIsSoundIff | suduo/net/Connector.cpp:103-106 | a new attempt meets the assertions if and only if the connector is not Connecting, no reset_channel is outstanding and, but for a restart, it is Disconnected |
| Connectors.StartGuardIff | suduo/net/Connector.cpp:32-40 | whatever connect answers, beginning an attempt keeps the invariant if and only if the connector is Disconnected and, if it is to connect, has no timer and no reset_channel outstanding |
| Connectors.RestartGuardIff | suduo/net/Connector.cpp:95-101 | restart does if and only if it is not Connecting and has neither outstanding |
| Connectors.RetryGuardIff | suduo/net/Connector.cpp:158-167 | the retry timer does if and only if no reset_channel is outstanding, or it is not to connect |
| Connectors.StartBesideTimerFails | suduo/net/Connector.cpp:32-40 | a start while a retry timer runs makes that timer's callback fail its assertion |
| Connectors.StoppedSuccessSticks | suduo/net/Connector.cpp:136-141 | whatever event is reported between stop and its functor, the socket is closed once, and the connector ends up Connected if and only if the event is a plain success, where start fails and restart is the way out; otherwise Disconnected |
| Connectors.ReportedSocket | suduo/net/Connector.cpp:123-156 | what becomes of the socket that is being connected: handed over if and only if the event is a plain success and a connection is wanted, else closed once if anything was reported, else still held; no other socket changes |
| Connectors.AttemptedSocket | suduo/net/Connector.cpp:58-93 | a step creates a socket if and only if it is an attempt that is wanted; it is held for 0, EINPROGRESS, EINTR and EISCONN, and closed at once for every other error number |
| Connectors.RetryScheduledIff | suduo/net/Connector.cpp:58-93 | a retry is scheduled if and only if the socket is given up for another try (EAGAIN, EADDRINUSE, EADDRNOTAVAIL, ECONNREFUSED, ENETUNREACH, a reported failure, a stop) while a connection is wanted; a restart begins the delays anew |
| Connectors.HandedOverIff | suduo/net/Connector.cpp:136-138 | over all steps, a socket is handed over by its success only, while it is wanted |
| Connectors.UnwantedStaysQuiet | suduo/net/Connector.cpp:42-47 | once stopped, no socket is created and no retry scheduled until start or restart, over every run |
| Connectors.LoopOwes | suduo/net/Connector.cpp:27-56 | what calls leave with the loop and functors take from it; a stop that finds a socket connecting closes it |
| Connectors.Connector.constructor | suduo/net/Connector.cpp:13-20 | Disconnected, with the initial delay |
| Connectors.Connector.StartInLoop | suduo/net/Connector.cpp:32-40 | tries iff asked to; keeps the invariant under the guard |
| Connectors.Connector.StopInLoop | suduo/net/Connector.cpp:49-56 | gives up a socket that is being connected |
| Connectors.Connector.Connect | suduo/net/Connector.cpp:58-93 | by the error number: connect on, retry, or close the new socket |
| Connectors.Connector.Restart | suduo/net/Connector.cpp:95-101 | resets the delay and tries again |
| Connectors.Connector.HandleWrite | suduo/net/Connector.cpp:123-146 | retries on a socket error or self-connect, else hands the socket over, or closes it if stopped; ReportedSocket says which from the event alone |
| Connectors.Connector.HandleEvent | suduo/net/Channel.cpp:52-60 | error before write in one dispatch; the assertion of handle_write holds |

## Left out

- System calls: socket, poll, readv, write, shutdown, eventfd and timerfd are steps with any result they can return.
- TcpConnection.send(const void*, int): it calls itself; the string and buffer overloads are modelled.
- Receive times: they are passed through unused by everything modelled here.
- Machine integers: indices, sizes, ids and counters are unbounded; the codec's 32-bit length and the buffer's signed integers are modelled with their widths.
- Buffer.find_CRLF(start), find_EOL and internal_capacity: not used by the code modelled here.
- Moved-from vectors: a resized or swapped buffer array is a new or exchanged array; allocation failure is not modelled.
- AsyncLoggers.AsyncLogger.Append: a buffer behind a unique pointer is the text it holds, so the in-place copy is that of `StreamBuffers.StreamBuffer.Append` and not of this class.
- AsyncLoggers.AsyncLogger.Turn: rolling and flushing of the log file, and the timed wait, are not part of this model.
- Lifecycles.TcpServer.NewConnection: the loop is any loop instead of the next of the thread pool, and a connection is known by its id instead of the name built from it.
- Lifecycles: the connections' buffers and user callbacks are in `Connection` and not repeated here; a callback acts by further steps.
- Lifecycles: the destructor of TcpServer, force_close_with_delay, the acceptor and TcpClient are not part of this model.
- EPollPoller: its state is mostly the kernel's, and it leaves a channel with an empty mask registered.
- EventLoops: threads that construct and join loops (EventLoopThread, EventLoopThreadPool) are not part of this model.
- ThreadPools.TasksInOrder: starting and joining threads is not modelled; with no worker the source runs a task at once in the caller.
- TimerQueues: intervals and times are integer nanoseconds of one clock, where the source mixes a wall clock, a monotonic timer fd and floating-point seconds.
- TimerQueues: the branch that remembers cancellations during callbacks, because cancelling is always queued and never runs inside `handle_read`.
- TimerQueues: callbacks that add timers, because the end of the due timers is fixed before they run.
- Http.HttpContext.ParseRequest: a call after the whole request without a reset, which the server never makes and where the source's loop does not end.
- Http: the body state, which is never entered, and HttpResponse.
- Connectors.Connector.HandleWrite: socket errors and self-connection are answers of the kernel, given as parameters.
- PollPollers.PollPoller.RemoveChannel: the removed channel keeps its old slot number, as in the source, so it must not be updated again.
- Formatting, files and logging: Logger, LogFile, LogStream's operators, FileUtil, Timestamp and InetAddress are not part of this model.
