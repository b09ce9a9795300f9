# Verified model of the yamux WebSocket transport

The repository carries RPC calls over WebSocket: a hand-written TypeScript client multiplexes
streams with the yamux protocol, puts 5-byte framed messages on each stream, and a Go router at the
other end answers them.  This project models that stack in Dafny 4.11 and proves what it is for: what
is sent on a stream is what is received, whole and in order, however the bytes are cut and the
concurrent parts interleave; flow control neither overdraws nor stalls; and a remote unary call means
what a local call means.  `dafny verify dfyconfig.toml` checks the whole project.

## How the code is modelled

JavaScript runs to completion between two awaits, so every synchronous stretch is one step: a call up
to its first await, an async function from one await to the next, a WebSocket event handler.  A pending
promise is explicit state: a parked reader of a `ByteBuffer`, a blocked writer of a stream, a woken
writer the engine has not continued yet, the read loop awaiting a header or a payload, a `send`
awaiting one of its two writes.

Each class of the source is a class here, with its fields and loops: `ByteBuffer`, `YamuxStream`,
`YamuxSession`, `WSStream`, `ServerStream`, the Go `Stream` functions and `WSRouter`.  Their methods
are proved to take the steps of a plain value (`Buffers`, `Streams`, `Sessions`, `Messages`), and the
theorems are about all runs of those steps.  Histories (bytes accepted and delivered, frames sent,
credit received) are fields of the value and ghost fields of the class.

| files | what they hold |
|---|---|
| Bytes, Records, YamuxFrames, AppFrames, WireBytes | integers on the wire, the two record formats, the one-shot parse and its inverse, the bytes of the first frames |
| Buffers, ByteBuffer, Pulls, Receiving | the byte queue, the class, the asynchronous record reader, `recv` |
| Streams, YamuxStream, StreamWrites, StreamCredit, StreamLife | one stream: steps, class, concurrent writers, receive window, life cycle |
| Sessions, YamuxSession, WebSockets | the session: steps and class, `sendFrameRaw` |
| SessionTables, SessionParsing, SessionStreams, SessionLogs, SessionFeeding, SessionCredits, SessionEof | all runs of a session: ids and shutdown, parsing, projection to streams, frames out, data and credit in, end of data |
| ControlFrames | pings answered, GoAway |
| StrandedWrites, Openings | writes on a stream that has left the table; a new stream between the awaits of `openStream` |
| FlowControl, FlowProgress, FlowGrants | the session and a peer that obeys the credit rule |
| Messages, MessageSends, WSStream, OpenStreams | `send` and `recv` on a stream: steps, what is sent, class, the classes together |
| EndToEnd, EndToEndEof, Endings, CleanSends, Arrivals, OnePayload | from one session to another: integrity, the end of a stream and why it ends, when sends are clean, that everything arrives |
| BothWays, PlainRuns, Weights, JoinedEnds, GettingThrough | two sessions joined in both directions: no standstill, every schedule ends, payloads of any size |
| GoStreams, Routers, Transport, RemoteCalls, CallEndToEnd, CallArrivals, StreamCalls | the Go end, dispatch, the consumer loops, unary and streaming calls, alone and through a session |

## Where the code and an expectation differ

Each of these is a theorem with the exact condition, or a concrete case beside it.

- A second `readExact` while one is parked overwrites the first, which never settles
  (`Buffers.OrphanExactly`, `Buffers.OrphanForever`).
- After a stream ends inside a frame the next `recv` looks for a header in the leftover bytes and may
  return a payload nobody sent (`Receiving.RetryAfterEofExactly`, `Receiving.TruncatedFrameMisread`).
  The prefix theorems are therefore about the results before the first failure.
- `closeWrite` while a write is suspended lets DATA follow the FIN (`StreamLife.FinIsLastExactly`).
- A FIN on a closed stream reopens its write side (`StreamLife.LifeCycleExactly`,
  `StreamLife.SecondFinReopens`), and DATA can follow the FIN of any stream then
  (`StreamLife.ReopenedSendsAgain`, `StreamLife.DataAfterFin`).
- `onerror` marks the session closed without emptying the table, and `close()` then does nothing; only
  `onclose`, or frames the loop has already read (a GoAway, or RSTs for the streams left), still empty it
  (`SessionTables.ShutdownExactly`,
  `SessionTables.CloseEmptiesExactly`, `SessionTables.CloseAfterErrorKeepsTable`).
- Resets settle readers but not writers: when a stream leaves the table, what the window does not cover of
  the writes in hand is never sent and those calls never return
  (`StrandedWrites.BlockedWritesStrandExactly`; the cases `StrandedWrites.WriteNeverReturns`,
  `StrandedWrites.WokenWriteStrands`).  A window update with RST wakes them after the reset, and they go
  on sending (`SessionStreams.ResetUpdateStillSends`).
- `openStream` can throw although `open()` has succeeded: the new stream may leave the table at the await of
  `open()`, or at that of the header, before the method name is sent (`Openings.OpenStreamThrowsExactly`;
  the cases `Openings.OpenedThenGoAway`, `Openings.HeaderThenGoAway`).
- A `send` whose payload write throws leaves a header without a payload; if a FIN then reopens the
  write side, the next `send` is accepted and its frame is read as that payload
  (`MessageSends.FramesIntactExactly`, `MessageSends.SendAfterBreakExactly`; it takes a second FIN or a
  local reset, `CleanSends.OneFinSendsCleanly`).
- Two overlapping calls of `send` on one stream mix their frames
  (`MessageSends.OverlappingSendsExactly`, `MessageSends.OverlappingSendsMix`).
- A callback of `listen` that throws the exported `EOF` ends the loop with `onEnd` in the middle of the
  stream (`Transport.ListenAgreesWithIterateExactly`).
- A Go reader cut exactly between a header and its body reports a clean EOF (`GoStreams.ReadFrame`).
- `callUnary` half-closes its stream only after a payload, not after an error (`Transport.CallUnary`).
- The SYN grants INITIAL_WINDOW on top of the protocol's default window, so the peer's window is
  larger than `recvWindow` by that constant (`FlowControl.CreditConserved`).

## Hypotheses

One `send` and one `recv` at a time per stream, and no direct `write` or `readExact` on a stream that
has a WSStream (`Messages`, `EndToEnd`).  No send accepted after a broken one
(`EndToEnd.SendsCleanly`, the exact condition; `CleanSends` has what guarantees it).  Lengths, ids and
flags that go on the wire fit their fields (`EndToEnd.Fits`, `AppFrames.AllSendable`); for credit this
is proved, not assumed (`FlowGrants.GrantsFit`).  The peer sends no data on a stream before it is open
(`EndToEnd.Unused`, `EndToEndEof.Untouched`), and in `FlowControl` no more than its window allows.  No FIN
arrives on a closed stream where a stream is said to stay closed or silent (`StreamLife.ClosedIsFinal`,
`StreamLife.FinIsLastExactly`).  Of a stream's credit less than one and a half windows come
before the stream is opened (`BothWays.NoStandstill`; a SYN grants one).  In `GettingThrough` each session
has its first stream only, and nothing is closed or reset.  The
bytes the network delivers are a front of those sent, in order.  `onclose` follows `onerror`
(`SessionTables.ShutdownComplete`).  A reply's length fits 32 bits (`RemoteCalls`).  In `StreamCalls` onMessage
does not throw, and the payloads decode; where a stream is cut short, decoding only has to throw no EOF.  Where a stream is
said to end with EOF it is not reset.

## Model

| member | source | states |
|---|---|---|
| EndToEnd.EndToEndIntegrity | ts/src/stream.ts:25-49 | for any two runs of sessions in which no send is accepted after a broken one, any calls on any streams, any interleaving of writers and window updates and any cutting of the wire: what recv returned before its first failure is a prefix of the payloads passed to send, whole and in order |
| EndToEnd.EverythingArrives | ts/src/stream.ts:25-49 | when the sender is between sends, its bytes are all in and the receiver is parked again, recv has returned every payload sent |
| EndToEnd.SenderSide | ts/src/yamux.ts:63-82 | the DATA payloads of a stream on the wire are what the stream sent, and, unless a send was accepted after a broken one, a prefix of the encoded frames of the payloads passed to send |
| EndToEnd.IntactExactly | ts/src/stream.ts:25-34 | in every run of a session the writes of a stream are whole frames and the one in progress, throughout, if and only if no send is accepted after a broken one |
| CleanSends.OneFinSendsCleanly | ts/src/yamux.ts:143-150 | that condition holds in every session in which the peer sends at most one FIN for the stream and the stream is not reset locally |
| EndToEnd.ReceiverSide | ts/src/yamux.ts:271-342 | for any peer and any cutting: if the stream's data on the wire is the front of some application frames, recv returns the front of those frames, error frames as errors |
| EndToEnd.AnyBytesCanArrive | ts/src/yamux.ts:243-246 | the receiving end's hypotheses can be met: any bytes may arrive once the first stream of a new session is open |
| Arrivals.WireArrives | ts/src/yamux.ts:271-342 | for any stream opened at any point of any run, any frames that end neither it nor the session, and any cutting of them into messages: a run of the read loop and of recv takes in all of them and leaves both parked |
| Arrivals.SenderHeardOut | ts/src/stream.ts:25-49 | hence any sender whose frames end nothing can be heard out by any session with that stream open: a run of it meets every hypothesis of EverythingArrives and returns every payload, for any cutting |
| Arrivals.EverySenderHeardOut | ts/src/stream.ts:25-49 | and such a session exists for every sender, on whatever stream it sends |
| OnePayload.OnePayloadArrives | ts/src/stream.ts:25-49 | in particular every payload the window suffices for, sent on a new session, can arrive, cut anywhere |
| BothWays.NoStandstill | ts/src/yamux.ts:63-140 | for any two runs of sessions and payloads of any size: when all bytes are in on both sides, both read loops and recv are parked and no write or send waits for the engine, then every write and send has returned and, for clean sends, recv has returned every payload - the receiver's grants suffice |
| BothWays.GrantedIsCredit | ts/src/yamux.ts:309-321 | all that the receiver has granted is then the sender's credit, but for what came before the stream was opened |
| GettingThrough.EveryScheduleDelivers | ts/src/yamux.ts:63-140 | two sessions joined by two channels of bytes, sending to each other: in every run, whatever bytes arrive, in whatever portions, and whatever is continued next, every schedule comes to an end within a bound, and when nothing is left to do recv has returned at either end every payload passed to send at the other, of any size, whole and in order |
| GettingThrough.EveryStateInOrder | ts/src/stream.ts:25-49 | and at every point of every run recv has returned a front of them |
| GettingThrough.EveryPayloadGetsThrough | ts/src/stream.ts:25-49 | for any payloads at both ends, any number of them and of any size a frame can have, there is a run of the joined sessions, each byte handed over after it was sent, in which all are sent and returned |
| GettingThrough.StepLowersWork | ts/src/yamux.ts:63-140 | every arrival and continuation does nothing or lowers a measure of the two sessions: no order of them can go on for ever |
| Weights.MoveSteps | ts/src/yamux.ts:68-140 | what an end does pays for what it makes the other end do: a data byte for its frame, a grant for its window update, a payload for its reads |
| PlainRuns.LoopActHears | ts/src/yamux.ts:271-342 | while a session takes in data and window updates of its stream, a continuation of its loop sends nothing, or one window update that grants something |
| EndToEndEof.FramesThenEofForEver | ts/src/stream.ts:37-49 | through a session: if the peer puts whole frames and then a FIN on a stream that is not reset, recv returns every frame in order and then EOF on every later call, whatever else the session does |
| EndToEndEof.FirstFrameArrives | ts/src/stream.ts:37-49 | and once all bytes are in and loop and reader have been continued as far as they go, a call of recv has returned |
| EndToEndEof.EveryCallReturns | ts/src/stream.ts:37-49 | and if a FIN was among the bytes, every call of recv has returned: none hangs on a closed stream |
| SessionEof.RunEof | ts/src/yamux.ts:284-321 | in every run a stream that is never reset stays in the table, takes in exactly the data dispatched up to the peer's FIN, and is closed for reading by that FIN alone, with EOF |
| CallEndToEnd.RemoteCallOverSession | ts/src/transport.ts:34-47 | a unary call through the client's session and the wire to dispatch and back, with other streams' frames between and any cutting: recv returns the local call's outcome, or nothing yet, before any failure |
| CallEndToEnd.RemoteCallReturns | ts/src/transport.ts:34-47 | and it does return: once the answer is in and loop and recv have been continued as far as they go, the first result is the local call's outcome, which callUnary turns into what a local caller gets, and every later one EOF |
| CallArrivals.CallCanReturn | ts/src/transport.ts:34-47 | these hypotheses can be met: for every registry, handler and call the window suffices for, on any stream of any session, whatever frames bring the answer and wherever they are cut, there is a run that makes the two sends, then takes the answer in and returns the local call's outcome |
| CallArrivals.OneCallReturns | ts/src/transport.ts:34-47 | in particular on a new session: the two sends, and after them the reply and its FIN cut anywhere |
| CallEndToEnd.StreamedMessages | ts/src/transport.ts:92-126 | the messages listener and iterator see are the payloads the server streamed, decoded, in order, and the stream ends normally after the last one and not before |
| StreamCalls.HandlerHeard | ws/router.go:159-173 | a whole streaming call: the client names a method and sends requests, the router runs its handler on them, what that wrote comes back cut in any way; listener and iterator are told of the payloads written, decoded and in order, and then of the handler's error, of its panic, or of the end |
| StreamCalls.StreamAnswered | ws/router.go:159-173 | what the server puts on the stream of a streaming method is every frame its handler wrote, in order, and one error frame naming the panic if it panicked with the write side open |
| StreamCalls.FramesConsumed | ts/src/transport.ts:92-126 | through a session: data frames and then an error frame make the listener's last callback onError with that RemoteError and end the iterator with it; without an error frame it is onEnd and a normal end |
| StreamCalls.CutShortIsHeard | ts/src/yamux.ts:153-156 | a stream that leaves the table before the peer's FIN, at any point of any run: onEnd is never called and the iterator never ends normally, then or later, and once a call of recv has failed both are told of an error |
| StreamCalls.LostCallFails | ts/src/transport.ts:44 | a unary call whose stream is lost before the answer fails with the error of the reset, not with a value or a clean end |
| Endings.FailuresHaveReasons | ts/src/yamux.ts:101-156 | in every run: recv fails, and a stream is closed for reading, with EOF only if the peer sent a FIN for it, with "stream reset" only after a reset() of its own, with "stream reset by remote" only off the table, and with nothing else |
| Endings.CutShortIsNoEnd | ts/src/yamux.ts:153-156 | a stream taken off the table before its FIN, by close(), onclose, a GoAway or an RST, fails with the error of a reset in every continuation, whatever still arrives, and no call of recv hangs on it |
| EndToEnd.RunIsSession | ts/src/stream.ts:21-55 | a WSStream's run is a run of its session in which it makes only write and read calls on its stream |
| EndToEnd.StepKeepsOrder | ts/src/stream.ts:37-49 | no act of the program, the peer or the engine makes recv lose, reorder or invent a frame, or fail before every whole frame is returned |
| FlowControl.CreditConserved | ts/src/yamux.ts:111-121 | two-party conservation: in every reachable state, for a stream in the table, peer window + data in flight + credit in flight = receive window + the SYN's extra window, and the peer window is not negative |
| FlowControl.BooksBalance | ts/src/yamux.ts:202-215 | the same from any state in which the books are kept |
| FlowControl.DispatchedIsSent | ts/src/yamux.ts:271-342 | what the client has dispatched is the front of what the peer sent, however its bytes are cut |
| FlowControl.RunKeepsFlow | ts/src/yamux.ts:111-140 | every step of users, peer, engine and network keeps the books of every stream |
| FlowProgress.NeverStalledForGood | ts/src/yamux.ts:111-121 | from every reachable state some deliveries alone leave the peer at least 1.5 windows to send, if the session stays open and the stream in the table |
| FlowProgress.AllDeliveriesReopen | ts/src/yamux.ts:111-121 | and not only some: from every reachable state all deliveries, in any order, come to an end within a bound, and when none does anything any more the peer has at least 1.5 windows, under the same conditions |
| FlowProgress.DeliveryShrinks | ts/src/yamux.ts:243-288 | a delivery changes nothing or shrinks a measure of the whole system |
| FlowProgress.Drains | ts/src/yamux.ts:271-342 | from every state the channels can be emptied without any user or peer acting, unless the session closes |
| FlowProgress.BacklogShrinks | ts/src/yamux.ts:271-288 | every continuation of the read loop shrinks a measure, so it cannot run for ever on what has arrived |
| FlowProgress.PeerMayGoOn | ts/src/yamux.ts:116-120 | with nothing in flight the peer has at least INITIAL_WINDOW + INITIAL_WINDOW / 2 |
| FlowGrants.GrantsFit | ts/src/yamux.ts:116-120 | against a peer that keeps to its window every window update ever sent is at most two windows, so it fits its 32-bit field |
| StreamWrites.SendSafety | ts/src/yamux.ts:63-82 | in every run: window never negative; bytes sent + window = INITIAL_WINDOW + credit; each write's slices concatenate to a front of its argument, and to all of it once the write has returned; a parked writer means an empty window |
| StreamWrites.AtRest | ts/src/yamux.ts:68-81 | work conservation: with no write waiting for the engine, bytes sent = min(demand, INITIAL_WINDOW + credit), and a write is unfinished exactly when the credit does not suffice |
| StreamWrites.EnoughCreditFinishes | ts/src/yamux.ts:124-140 | from any reachable state, credit for what is left finishes every write with its whole argument sent |
| StreamWrites.ResumeProgress | ts/src/yamux.ts:68-81 | each continuation of a woken write sends bytes, or found the window empty and parks again: the termination measure |
| StreamWrites.AllOrNone | ts/src/yamux.ts:127-139 | an update that opens the window wakes every waiter in order, one that does not wakes none: no lost wakeup |
| StreamWrites.StepKeeps | ts/src/yamux.ts:63-140 | every step of a stream keeps the accounts of its concurrent writes |
| StreamWrites.SlicesArePrefixes | ts/src/yamux.ts:75-80 | what was sent for each write is, in order, the front of its argument |
| StreamWrites.PayBalanced | ts/src/yamux.ts:75-80 | sending a slice moves it from the window and the write's rest to the bytes paid, and keeps every other write's account |
| StreamCredit.WindowRecovers | ts/src/yamux.ts:111-121 | after any run, for payloads of any size: INITIAL_WINDOW / 2 <= window <= INITIAL_WINDOW and window + bytes received = INITIAL_WINDOW + credit granted |
| StreamCredit.GrantFitsExactly | ts/src/yamux.ts:116-119 | the credit granted is the credit on the wire exactly when the restored window fits 32 bits |
| StreamCredit.UpdatesAreRare | ts/src/yamux.ts:115-120 | in every run and for any cutting: a window update goes out only for more than half a window of bytes, so there is at most one per 131073 bytes taken in |
| StreamLife.LifeCycleExactly | ts/src/yamux.ts:90-106 | state is throughout the function of (own FIN sent, peer FIN seen, reset) and FIN is sent at most once, if and only if no FIN arrives on a closed stream |
| StreamLife.LifeStepExactly | ts/src/yamux.ts:143-156 | the one step that breaks that relation is a FIN on a closed stream |
| StreamLife.ClosedIsFinal | ts/src/yamux.ts:90-106 | closed is final under the same condition |
| StreamLife.AnnouncedExactly | ts/src/yamux.ts:90-106 | in every run the flagged frames a stream sends are a FIN for each closeWrite that found the write side open and an RST for each reset that found the stream not closed, in order, and no others |
| StreamLife.ReadingEndsExactly | ts/src/yamux.ts:90-156 | in every run a stream is closed for reading exactly when it has seen a FIN or a reset of either side, and no reader is parked on it then; closeWrite leaves reading open |
| StreamLife.SecondFinReopens | ts/src/yamux.ts:143-150 | the case: a second FIN reopens a closed stream, and the next closeWrite sends a second FIN |
| StreamLife.FinIsLastExactly | ts/src/yamux.ts:90-98 | no DATA byte follows the own FIN in any continuation in which no FIN arrives on the closed stream, if and only if no write is suspended at closeWrite; the receiving half is untouched |
| StreamLife.ReopenedSendsAgain | ts/src/yamux.ts:143-150 | without that hypothesis it never holds: after the own FIN of every stream a continuation with a second FIN sends a DATA byte |
| StreamLife.DataAfterFin | ts/src/yamux.ts:143-150 | the case: a new stream, half-closed with nothing suspended, reopened by two FINs |
| StreamLife.SuspendedWriteSends | ts/src/yamux.ts:68-81 | a suspended write goes on sending as soon as there is credit, whatever the state |
| Streams.StepEmits | ts/src/yamux.ts:63-156 | a step sends at most one frame, of this stream's id, well shaped, and keeps what was sent before |
| Streams.StepOk | ts/src/yamux.ts:63-156 | every step keeps the receive buffer's invariant, and suspended writes have something left to send |
| YamuxStreams.Partition | ts/src/yamux.ts:126-136 | the loop over windowWaiters yields exactly the waiters the window suffices for, and the others, in order |
| YamuxStreams.YamuxStream.constructor | ts/src/yamux.ts:30-60 | a new stream: both windows full, open, nothing buffered |
| YamuxStreams.YamuxStream.RunWriter | ts/src/yamux.ts:68-81 | the loop of write from one await to the next is the step Advance and hands exactly its frames to the socket |
| YamuxStreams.YamuxStream.Write | ts/src/yamux.ts:63-82 | the call of write up to its first await is the step Write; it throws exactly when the write side is closed |
| YamuxStreams.YamuxStream.Resume | ts/src/yamux.ts:70-80 | a woken write continues as the step Resume |
| YamuxStreams.YamuxStream.ReadExact | ts/src/yamux.ts:85-87 | reads go to the stream's own buffer |
| YamuxStreams.YamuxStream.CloseWrite | ts/src/yamux.ts:90-98 | closeWrite is the step CloseWrite, and its frame is what the socket gets |
| YamuxStreams.YamuxStream.Reset | ts/src/yamux.ts:101-106 | reset is the step Reset |
| YamuxStreams.YamuxStream.OnData | ts/src/yamux.ts:111-121 | _onData is the step OnData, its window update included |
| YamuxStreams.YamuxStream.OnWindowUpdate | ts/src/yamux.ts:124-140 | _onWindowUpdate is the step OnWindowUpdate |
| YamuxStreams.YamuxStream.OnRemoteClose | ts/src/yamux.ts:143-150 | _onRemoteClose is the step OnRemoteClose |
| YamuxStreams.YamuxStream.OnReset | ts/src/yamux.ts:153-156 | _onReset is the step OnReset |
| SessionParsing.IncrementalParseRefinesOneShot | ts/src/yamux.ts:271-342 | for every run: the frames dispatched are the front of the one-shot parse of all bytes received, and all of it when the loop of an open session is parked, with exactly the unparsed tail held back |
| SessionParsing.RunKeepsLoop | ts/src/yamux.ts:243-246 | no run loses alignment: dispatched records, bytes in hand and bytes buffered make up what was accepted, which is what arrived while the buffer was open |
| SessionParsing.ResumeLoopKeeps | ts/src/yamux.ts:271-342 | so does one continuation of the loop, for frames of unknown streams and unknown types too |
| SessionParsing.ClosedLoopEnds | ts/src/yamux.ts:272-342 | however the session was closed, its loop handles at most the one frame it was reading, whatever still arrives |
| SessionParsing.ClosedLoopNeverHangs | ts/src/yamux.ts:217-261 | and it never stays parked: continued as far as it goes, it has ended |
| SessionTables.NonInterference | ts/src/yamux.ts:283-341 | a frame other than GoAway changes at most the stream it names, and only frames of that stream or a ping answer go out |
| SessionTables.CallsDoNotInterfere | ts/src/yamux.ts:63-106 | a call on a stream changes no other stream, nor the table, nor the session's buffer |
| SessionTables.StepIds | ts/src/yamux.ts:202-215 | ids are odd, strictly increasing and never reused; only open creates a stream, and each stands under its own id |
| SessionTables.RunIds | ts/src/yamux.ts:202-215 | the same over every run; no stream is ever forgotten by its users |
| SessionTables.ShutdownComplete | ts/src/yamux.ts:218-255 | after any order of close, GoAway and onclose, repeated at will: table empty, no parked reader, open refused, at most one GoAway sent - if onclose follows onerror |
| SessionTables.ShutdownSafety | ts/src/yamux.ts:218-261 | the invariant of shutdown over every run |
| SessionTables.ShutdownExactly | ts/src/yamux.ts:218-261 | in every run the table of a closed session is empty throughout, if and only if no onerror finds streams in the table |
| SessionTables.StepEmptiesExactly | ts/src/yamux.ts:257-260 | that is the one step that breaks it |
| SessionTables.CloseEmptiesExactly | ts/src/yamux.ts:218-233 | close() leaves the table empty exactly when the session was open or the table empty already |
| SessionTables.CloseAfterErrorKeepsTable | ts/src/yamux.ts:257-260 | the case: onerror, then close(), and stream 1 is still in the table |
| ControlFrames.EveryPingAnswered | ts/src/yamux.ts:324-328 | in every run the pings a session sends are, in order, one ACK for each ping it has dispatched, with the value of that ping, and no others |
| ControlFrames.GoAwayExactly | ts/src/yamux.ts:218-233 | in every run one GoAway with code 0 was sent if some call of close() found the session open, and none otherwise |
| StrandedWrites.BlockedWritesStrandExactly | ts/src/yamux.ts:153-156 | on a stream that has left the table, in every run: what the window did not cover of the writes in hand stays unsent, just that once no woken write waits for the engine, and all writes have returned then if and only if the window covered them |
| StrandedWrites.GoneInEveryRun | ts/src/yamux.ts:63-156 | its hypotheses hold of every stream outside the table of every reachable session |
| StrandedWrites.WriteNeverReturns | ts/src/yamux.ts:218-233 | the case: a write over the window, then close(): the call never returns, whatever happens afterwards |
| StrandedWrites.WokenWriteStrands | ts/src/yamux.ts:124-156 | the case of a write already woken, by less credit than it needs |
| SessionStreams.RunProjects | ts/src/yamux.ts:271-342 | every stream of a session goes through a run of its own steps |
| SessionStreams.CreatedByRun | ts/src/yamux.ts:202-215 | every stream of every session is a new stream after some run of its own |
| SessionStreams.EveryStreamKeepsItsBooks | ts/src/yamux.ts:63-140 | hence in every session every stream's send and receive windows account for every byte |
| SessionStreams.LifeCycleInEverySession | ts/src/yamux.ts:296-321 | with at most one FIN from the peer and no local reset of that stream, in every session the state of a stream is the function of its history, and its FIN goes out at most once |
| SessionStreams.AfterFrameIsRun | ts/src/yamux.ts:296-320 | a frame calls the handlers of its stream in the order payload, FIN, RST, window |
| SessionStreams.ResetUpdateStillSends | ts/src/yamux.ts:309-321 | a window update with RST wakes the blocked writes after the reset, and they go on sending |
| SessionLogs.LogIsTheStreams | ts/src/yamux.ts:345-366 | in every run: every frame handed to the WebSocket is well shaped, and a stream's frames among them are its SYN and exactly what the stream sent, in order |
| SessionLogs.LogCarries | ts/src/yamux.ts:345-366 | so the wire carries the stream's payload bytes and credit, no more and no less |
| SessionFeeding.RunFeeds | ts/src/yamux.ts:284-307 | in every run a stream takes in the data dispatched to it, all of it while it is open and in the table, never anything else |
| SessionCredits.RunCredits | ts/src/yamux.ts:309-321 | in every run a stream of the table has been given all the credit dispatched to it since it was opened, and no other |
| Sessions.SessionStepOk | ts/src/yamux.ts:172-342 | every step of a session keeps its streams and its suspended loop in order |
| YamuxSessions.YamuxSession.constructor | ts/src/yamux.ts:179-199 | a session after connect: empty table, next id 1, the loop awaiting its first header |
| YamuxSessions.YamuxSession.Open | ts/src/yamux.ts:202-215 | open is the step Open; it throws exactly when the session is closed; the stream is a new object and the one filed under the next id |
| YamuxSessions.YamuxSession.Close | ts/src/yamux.ts:218-233 | close is the step Close, and closes the WebSocket if the session was open |
| YamuxSessions.YamuxSession.OnMessage | ts/src/yamux.ts:243-246 | onmessage is the step OnMessage |
| YamuxSessions.YamuxSession.OnWsClose | ts/src/yamux.ts:248-255 | onclose is the step OnWsClose |
| YamuxSessions.YamuxSession.OnWsError | ts/src/yamux.ts:257-260 | onerror is the step OnWsError |
| YamuxSessions.YamuxSession.ResetEach | ts/src/yamux.ts:226-228 | the loop over the table resets every stream of it, once each, and no other |
| YamuxSessions.YamuxSession.ResetStreams | ts/src/yamux.ts:251-254 | ... and the table is then empty |
| YamuxSessions.YamuxSession.HandleData | ts/src/yamux.ts:284-307 | case TYPE_DATA is the step Dispatch for a DATA frame, a frame of an unknown stream included |
| YamuxSessions.YamuxSession.HandleUpdate | ts/src/yamux.ts:309-322 | case TYPE_WINDOW_UPDATE is the step Dispatch for a window update, RST before the update included |
| YamuxSessions.YamuxSession.HandleGoAway | ts/src/yamux.ts:330-338 | case TYPE_GO_AWAY closes the session, resets every stream and closes the WebSocket |
| YamuxSessions.YamuxSession.Dispatch | ts/src/yamux.ts:283-341 | the switch is the step Dispatch for every frame type, unknown types included |
| YamuxSessions.YamuxSession.HandleRecord | ts/src/yamux.ts:272-341 | a frame is dispatched and the loop awaits the next header, or ends after GoAway or on a closed session |
| YamuxSessions.YamuxSession.ResumeLoop | ts/src/yamux.ts:271-342 | the loop from one await to the next is the step ResumeLoop, and it closes the socket exactly when it handles a GoAway |
| YamuxSessions.YamuxSession.OneStreamChanged | ts/src/yamux.ts:208-209 | a call a user makes on a stream object is, for the session, a step of that one stream with its frames sent |
| YamuxFrames.ParseInvertsWire | ts/src/yamux.ts:274-288 | the parse steps invert sendFrameRaw for every list of well-shaped frames in range, whatever follows |
| YamuxFrames.FrameSurvivesExactly | ts/src/yamux.ts:345-366 | a well-shaped frame is read back as sent if and only if flags, id and length fit their fields |
| YamuxFrames.CutWireParses | ts/src/yamux.ts:274-288 | a connection cut anywhere yields whole frames from the front |
| YamuxFrames.HeaderFields | ts/src/yamux.ts:355-359 | byte by byte: version 0, the type, and flags, id and length with the high byte first, each modulo its width |
| YamuxFrames.FieldsRead | ts/src/yamux.ts:277-281 | any twelve bytes are read as type, and flags, id and length with the high byte first |
| YamuxFrames.FlagBits | ts/src/yamux.ts:17-20 | SYN, ACK, FIN and RST are the four low bits of the flags, each tested by itself |
| WireBytes.SynBytes | ts/src/yamux.ts:202-215 | the twelve bytes of the first open() |
| WireBytes.FinBytes | ts/src/yamux.ts:90-98 | the twelve bytes of closeWrite() on the first stream |
| WireBytes.RstBytes | ts/src/yamux.ts:101-106 | the twelve bytes of reset() on the first stream |
| WireBytes.GoAwayBytes | ts/src/yamux.ts:218-224 | the twelve bytes of close() |
| WireBytes.PingBytes | ts/src/yamux.ts:324-328 | a ping with value 5 and its answer, byte by byte |
| WireBytes.UpdateBytes | ts/src/yamux.ts:115-120 | 131073 bytes taken in make a window update of that many, one byte less makes none |
| WireBytes.SendBytes | ts/src/stream.ts:25-34 | the two frames of a send of one byte, byte by byte |
| WireBytes.FramesRead | ts/src/stream.ts:37-49 | recv takes a frame whose first byte is 1 for an error and any other for a payload |
| WebSockets.SendFrameRaw | ts/src/yamux.ts:345-366 | one message is sent: version 0, type, flags, id and length byte by byte with the high byte first, filled in place, and then the payload |
| WebSockets.SentIsWire | ts/src/yamux.ts:365-366 | all messages sent make up the wire form of the frame log |
| ByteBuffers.ByteBuffer.Push | ts/src/bytebuffer.ts:14-20 | push behaves as on a plain byte queue and keeps totalLen and the chunks sound |
| ByteBuffers.ByteBuffer.Close | ts/src/bytebuffer.ts:23-30 | close rejects the parked reader and keeps the data |
| ByteBuffers.ByteBuffer.ReadExact | ts/src/bytebuffer.ts:33-45 | readExact delivers exactly n bytes, fails, or parks, as the queue does |
| ByteBuffers.ByteBuffer.TryResolve | ts/src/bytebuffer.ts:47-54 | the parked reader is settled as soon as there is enough |
| ByteBuffers.ByteBuffer.Consume | ts/src/bytebuffer.ts:56-72 | the copying loop over the chunks takes the first n bytes of their concatenation |
| Buffers.Step | ts/src/bytebuffer.ts:14-72 | delivered ++ buffered = accepted; a parked reader means open and too few bytes; settled reads have exactly n bytes or an error of a closed buffer |
| Buffers.AcceptedIsPushed | ts/src/bytebuffer.ts:14-30 | what is accepted is what was pushed before the first close, whatever the reads do |
| Buffers.CuttingIrrelevant | ts/src/bytebuffer.ts:14-20 | any cutting of the bytes into chunks leads to the same state |
| Buffers.SettledStays | ts/src/bytebuffer.ts:33-54 | a read settles at most once |
| Buffers.OrphanExactly | ts/src/bytebuffer.ts:42-44 | a step loses a pending read if and only if it parks a second one over it |
| Buffers.OrphanForever | ts/src/bytebuffer.ts:42-44 | a lost read never settles |
| Buffers.ReadsInOrder | ts/src/bytebuffer.ts:33-54 | with one read at a time the resolved reads carry the delivered bytes in order and no read is lost |
| Buffers.DrainAfterClose | ts/src/bytebuffer.ts:23-45 | after close, reads are served until the data runs out; only then does one fail, with the close's reason |
| Records.SplitSound | ts/src/yamux.ts:274-288 | one-shot parsing loses no byte and stops only where no whole record is left |
| Records.SplitIncremental | ts/src/yamux.ts:274-288 | parsing may stop and resume anywhere |
| Records.DecodingUnique | ws/stream.go:80-104 | two lists of records with the same bytes are the same |
| Records.TruncationSafe | ws/stream.go:92-104 | a truncated byte string yields no part of a record |
| Pulls.AlignedContinue | ts/src/stream.ts:37-49 | a reader between two awaits neither loses nor reorders a byte |
| Pulls.ParkedMeansParsed | ts/src/stream.ts:37-49 | a parked reader has delivered every whole record and holds the unparsed tail |
| Receiving.RecvReturnsFrames | ts/src/stream.ts:37-49 | in every run recv's results before the first failure are the frames at the front of the bytes received, and all whole frames once it has failed |
| Receiving.WholeFramesThenEof | ts/src/stream.ts:37-49 | whole frames and then FINs, cut and interleaved at will: recv returns every frame and then EOF on every later call |
| Receiving.EofNeverOvertakesData | ts/src/bytebuffer.ts:23-45 | in every run, with closes at any points and for any reasons: the i-th result is whole frame i, the first failure comes after the last whole frame with a reason of one of the closes, and every later call fails too if less than a header is left over |
| Receiving.FirstFrameReturned | ts/src/stream.ts:37-49 | once a whole frame is in, a call of recv has returned it or the engine still has to continue it |
| Receiving.RetryAfterEofExactly | ts/src/stream.ts:37-49 | calls after a failure all fail too, if and only if the truncated tail is shorter than a header or nothing behind its header looks like a frame |
| Receiving.TruncatedFrameMisread | ts/src/stream.ts:37-49 | the case: a stream cut inside a payload makes the second recv return a payload nobody sent |
| Receiving.CallsAreRetry | ts/src/stream.ts:37-49 | what further calls return on a closed buffer, by the reader's own steps |
| MessageSends.SendAndRecvAreFrames | ts/src/stream.ts:21-55 | in every run of a WSStream: unless a send was accepted after a broken one, the bytes sent are the front of the frames of the payloads passed to send; recv's results are the frames received |
| MessageSends.StepKeepsTxExactly | ts/src/stream.ts:25-34 | a step keeps header and payload writes end to end, the frame in progress included, if and only if it is not an accepted send after a broken one |
| MessageSends.FramesIntactExactly | ts/src/stream.ts:25-34 | the same over every run: intact throughout if and only if no send is accepted after a broken one |
| MessageSends.NotReopenedNeverAfterBreak | ts/src/yamux.ts:143-150 | which cannot happen unless a FIN arrives on a closed stream |
| MessageSends.SendAfterBreakExactly | ts/src/stream.ts:30-33 | the case: reset between header and payload, a FIN that crosses it, another send; the bytes are the front of the two frames if and only if the second frame happens to continue the first payload |
| MessageSends.OverlappingSendsExactly | ts/src/stream.ts:30-33 | two overlapping sends put their two frames on the stream if and only if the second header and the first payload commute, as they do when the first payload is empty |
| MessageSends.OverlappingSendsMix | ts/src/stream.ts:30-33 | otherwise the first frame read back has the front of the second header for its payload |
| WSStreams.WSStream.FrameHeader | ts/src/stream.ts:26-29 | the five bytes filled in place: type 0 and the length with the low byte first |
| WSStreams.WSStream.Send | ts/src/stream.ts:25-30 | send up to its first await, also after a broken send, and exactly its frames on the socket |
| WSStreams.WSStream.ContinueSend | ts/src/stream.ts:30-33 | send after the await of the header and after that of the payload, the exception of a closed write side included, and exactly its frames on the socket |
| WSStreams.WSStream.Recv | ts/src/stream.ts:37-38 | recv up to its first await |
| WSStreams.WSStream.ContinueRecv | ts/src/stream.ts:38-49 | recv after each await: next read, payload, RemoteError, or the buffer's error |
| WSStreams.WSStream.Close | ts/src/stream.ts:52-54 | close half-closes the yamux stream, its FIN on the socket |
| OpenStreams.SendOn | ts/src/stream.ts:25-30 | send on a WSStream is, for the session its stream is on, a step of that one stream with its frames sent |
| OpenStreams.ContinueOpen | ts/src/transport.ts:22-26 | openStream from the await of open() to that of the method name's header, in whatever state the session is by then: the header is sent on the new stream, or an exception exactly when that stream's write side is closed |
| Openings.HeaderRefusedExactly | ts/src/transport.ts:22-26 | whatever happens between the two: that is the case exactly when the new stream has left the table |
| Openings.OpenStreamThrowsExactly | ts/src/transport.ts:18-27 | over all awaits of openStream, whatever happens at each: it throws exactly when the new stream has left the table at the await of open(), or, for a name that is not empty, at that of the header |
| Openings.OpenedThenGoAway | ts/src/yamux.ts:330-338 | the case: a GoAway has arrived, open() succeeds, and the read loop handles the GoAway before the name is sent |
| Openings.HeaderThenGoAway | ts/src/stream.ts:30-32 | the other case: the loop handles it when the header is out, and openStream throws for every name but the empty one |
| Openings.FirstStreamThrows | ts/src/transport.ts:18-27 | so it does on the first stream of a session that a GoAway has just reached |
| AppFrames.DecodeInvertsEncode | ws/stream.go:80-104 | each end decodes the other end's frames to the same list |
| AppFrames.EncodingInjective | ws/stream.go:80-89 | two lists of frames with the same bytes are the same |
| AppFrames.CutYieldsWholeFrames | ws/stream.go:92-104 | a truncated tail never yields a partial payload |
| AppFrames.SurvivesExactly | ts/src/stream.ts:26-33 | a frame survives the wire if and only if its length fits 32 bits |
| AppFrames.FrameBytes | ws/stream.go:80-89 | a frame is the type byte, the length with the low byte first, modulo 2^32, and the payload |
| GoStreams.WriteFrame | ws/stream.go:80-89 | the Go writer produces the same frame, or an error on a closed write side |
| GoStreams.ReadFrame | ws/stream.go:92-104 | the Go reader takes the first frame off, or consumes what is left and reports how it was cut |
| GoStreams.Recv | ws/stream.go:33-42 | an error frame becomes a RemoteError, any other frame its payload |
| GoStreams.Send | ws/stream.go:45-47 | Send writes a data frame |
| GoStreams.SendError | ws/stream.go:59-61 | SendError writes an error frame |
| GoStreams.GoReadsDecode | ws/stream.go:92-104 | the Go reader and the one-shot parse find the same frames in every byte string |
| Routers.WSRouter.Handle | ws/router.go:39-43 | registers a unary handler and nothing else |
| Routers.WSRouter.HandleStream | ws/router.go:46-50 | registers a stream handler and nothing else |
| Routers.WSRouter.Dispatch | ws/router.go:91-122 | all the server writes for one stream is Answer of what the client sent, and the write side is closed on every path |
| Routers.WSRouter.HandleUnary | ws/router.go:124-148 | the error paths of a unary call and its response |
| RemoteCalls.HandlerOutcomeAnswered | ws/router.go:124-157 | no panic escapes: every outcome of a unary handler is answered with one frame, a data frame with the marshalled message exactly when the handler returned one that marshals, else an error frame with the handler's message or panic |
| Routers.WSRouter.RunStream | ws/router.go:159-173 | a panicking stream handler adds an error frame if the stream is still open |
| RemoteCalls.AnswersExactlyOnce | ws/router.go:91-148 | on every path that does not end in a stream handler, for any bytes: exactly one frame if enough was read, none otherwise |
| RemoteCalls.ErrorsAreNamed | ws/router.go:94-134 | for any bytes: a first frame that is no data frame, an unregistered method and a request that is no data frame are each answered with one error frame whose text says which |
| RemoteCalls.AsciiText | ws/router.go:101 | the bytes of such a text are its characters, in order |
| RemoteCalls.AnswerIsLocal | ws/router.go:114-157 | the answer is the local call's outcome; a unary registration wins over a stream registration |
| RemoteCalls.RemoteCallIsLocalCall | ts/src/transport.ts:34-47 | for any registry and handler, partial, failing or panicking, and any cutting: callUnary's result is the local call's value or an error with its message, and recv has returned it once called and continued as far as it goes |
| Transport.CallUnary | ts/src/transport.ts:34-47 | two frames out, one result in, or an exception and nothing sent on a closed write side; the stream is half-closed exactly when a payload came back |
| Transport.ServerStream.ReadLoop | ts/src/transport.ts:111-126 | the listen loop makes exactly the callbacks of Trace and sets done exactly when it is over |
| Transport.ServerStream.Iterate | ts/src/transport.ts:92-104 | the iterator yields the messages of the stream and ends as it ended |
| Transport.ListenerTraceShape | ts/src/transport.ts:111-126 | messages, then at most one of onEnd and onError, and nothing after |
| Transport.EveryEndIsTold | ts/src/transport.ts:92-126 | listener and iterator are told of the messages, decoded and in order, and then of exactly what came instead of one: onEnd and a normal end for EOF, the RemoteError of an error frame, the error of a lost stream, a payload that cannot be decoded |
| Transport.OnEndExactly | ts/src/transport.ts:117-124 | onEnd is called, and the iterator ends normally, if and only if the first result that is no message is an EOF or a payload whose decoding throws one |
| Transport.EveryThrowIsTold | ts/src/transport.ts:112-125 | an onMessage that throws is the last message, then onEnd for an EOF and onError otherwise |
| Transport.ListenAgreesWithIterateExactly | ts/src/transport.ts:92-126 | listener and iterator see the same messages and the same end, if and only if no onMessage throws, or it throws EOF for the last message of a stream that ends normally |

## Left out

- WebSocket connection, HTTP upgrade, the accept loop, mutexes, logging, contexts and cancellation
  (ts/src/yamux.ts:184-199, ws/router.go:52-89): I/O plumbing; only their effects are steps.
- The peer's yamux implementation: any peer that keeps to the credit rule; coder/websocket is a reliable byte channel.
- `WebSocket.send` failing on a closing socket: every frame handed to `send` counts as sent.
- EndToEnd.EndToEndIntegrity: the receiving end is this repository's own session with the stream opened on its side, not the Go library's accept.
- CallEndToEnd.RemoteCallReturns: the server's yamux library is not part of this repository; it is taken to hand dispatch the stream's data and to put the answer on the stream.
- RemoteCalls.RemoteCallIsLocalCall: starts at the bytes of one stream; what the session does with them is in EndToEnd and CallEndToEnd.
- RemoteCalls.AnswersExactlyOnce: stream handlers write what they like and are excluded.
- GoStreams.WriteFrame: a write fails only on a closed write side, not halfway through a frame.
- Routers.WSRouter.RunStream: a stream handler is a function of all bytes it will receive; interleaving of its reads and writes with the client is not modelled.
- Transport.CallUnary: the two sends are one step each; their blocking on the send window is in `Messages`, and a write side that closes between them in `WSStreams`.
- Transport.ServerStream.ReadLoop: one class stands for ServerStream and BidiStream, whose loops are the same; listen and iterate are not run at the same time on one stream.
- YamuxSessions.YamuxSession.ResetEach: visits the table in any order, the source in insertion order; the resets do not depend on it.
- Window counters are unbounded integers; the source's doubles are exact up to 2^53.
- Protobuf, UTF-8 encoding of method names and error texts, and handler bodies: any functions, partial where the source may fail.
- ClientStream, ws/client.go, ws/typed_stream.go: thin mirrors of what is modelled.
- cmd/protoc-gen-ws, cmd/protoc-gen-ws-ts, the k6 bundles, the generated stubs, examples and scripts: easy claims only.
- Timing, keepalive and memory bounds: the code promises none that could be stated.
