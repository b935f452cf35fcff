# Verified model of the VNC relay plugin

This project models the parts of the xqs-vnc plugin that hold state or parse bytes, and proves what
they keep. The plugin speaks RFB (RFC 6143) to a VNC server over one credit-windowed channel and to
a browser over another, and multiplexes both channels and its JSON-RPC on one stdin/stdout pipe.

`dafny verify dfyconfig.toml` checks all of it.

## How it is laid out

| module | what it models |
|---|---|
| `Stream` | `transport.Channel` as a byte stream: `Read`, `Write`, `io.ReadFull`, the splitting of writes into frames |
| `ClientMessage`, `ReadOnlyFilter` | the client-message parser, the read-only filter, the browser-to-server pump |
| `Codec`, `Stdout` | the 9-byte frame codec and the many writers that share stdout |
| `Version`, `RfbHandshake`, `HandshakeDuality` | both RFB handshakes, each alone and run against each other |
| `Credit` | the sender-side credit window with its condition variable, credit frames, the receive queue |
| `Coupling`, `Pump` | the coupling policy; connecting the handshakes, and the server-to-browser pump |
| `RelayLink`, `Pacing`, `Relay` | the running relay as one system: the host, the read loop, both channels, the handshakes and both pumps |
| `RelayInvariant`, `RelayWindow`, `RelayBoundary` | what holds in every reachable state of that system: credit, bytes, the read loop, where the relay begins |
| `RelayHistory`, `RelayEndings` | that state against the events of its run: windows, grants, frames and backpressure counted off the run; what a goroutine that returns leaves behind |
| `RelayProgress` | every schedule of the plugin's steps ends, where it ends, and what has got through by then |
| `RelayStarvation`, `RelayDeadlock`, `RelayRuns` | exactly when the relay waits for good: for bytes the host has no credit to send, or the read loop and a pump for each other; and runs that get there |
| `Session`, `SessionOutcome`, `SessionObject` | connect, relay end, reconnect and teardown: all goroutines of a session, what can become of it, and the session object's own methods |
| `Deadline`, `Signals`, `RpcClient` | the resettable deadline, the backpressure gate and registration signal, request/response correlation |
| `Bytes` | bytes, big-endian integers, concatenation |

## How concurrency is modelled

A concurrent part is a step system: a `State`, the `Event`s, `Enabled`, `Next`, and `Reaches`, which
relates two states by a list of events. One event is one mutex-protected region, one channel
operation or one answered host call, so every interleaving of those is a run. A Go `select` is a free
choice among the ready cases. `sync.Cond` is a set of sleeping goroutines and a set of woken ones
that have not yet run: `Signal` wakes a sleeper chosen freely, `Broadcast` all of them. The host sends
data frames only within its window and is otherwise free. The main theorems speak of every state
that can be reached from the initial one by any list of events.

The relay system runs the handshakes with the same automata that the handshake methods are proved
against, reads client messages field by field with the same format, and lets the read loop of stdin
block on a full queue. Everything the host writes, including credit and the end of backpressure, goes
through that one read loop. Nothing is taken for granted about frame boundaries. Two conditions on what
the host has sent so far appear in the theorems: a bound on the length of the server's frames, and how
far the browser's whole messages outnumber its frames (`Pacing.Paced`; a browser that ends at most one
message per frame never does).

Where the source has an object, there is a class with its fields. The methods of the classes in
`Credit`, `Deadline`, `Signals` and `RpcClient` are the lock regions; each is proved to take the
object's `View()` to exactly the `Next` state of its event, so what is proved of all runs is about
these bodies. Sequential code (parsers, handshakes, pumps, encoder) is written as the reads and writes
the source performs on a connection, and proved against functions on the whole byte stream; the proofs
cover every way in which the peer cuts its bytes into frames.

## Where the code and its documentation disagree

The model follows the code.

- coupling.go:36-55 describes withholding and scaling of credit. `couplingGrant` only asks the policy
  about a request of one, so it is always exactly 1 (`Coupling.CouplingGrantIsOne`).
- credit.go:287-291 says that data after close is dropped. It is sure to be exactly if the queue is full
  (`Credit.LateDataDropped`); otherwise the select may queue it and the reader gets it
  (`Credit.LateDataReceived`). If it does so after dropping an earlier frame, the browser can be sent
  bytes with a gap (`RelayRuns.DroppedFrameLeavesGap`); short of that it never is
  (`RelayWindow.RelayIntegrity`).
- pump.go:269-299: the browser-to-server pump is documented to return nil on a clean close; it always
  returns an error (`ReadOnlyFilter.PumpBrowserToServer`).
- teardown.go:85-89: a user's disconnect "must never be" reported as an error. It is, exactly when it
  meets a session that is connecting or reconnecting (`Session.DisconnectReported`,
  `Session.DisconnectCanBeReported`).
- teardown.go:75-77 takes a session whose relay ended to be reported ready already. The relay goroutine starts
  before orchestrate makes that report (lifecycle.go:162-182), so it can come last, after everything is over
  (`Session.DeadCanBeReportedReady`).
- teardown.go:42-46: Teardown closes both channels. It is sure to exactly when no connect is holding or
  about to open a channel that is not stored in the session (`Session.TeardownClosesEverything`,
  `Session.TeardownCanMiss`).
- pump.go:153-160 and coupling.go:60-67 describe two deadlocks as fixed: a host left without credit after
  the server handshake, and grants withheld from a slow browser. After the handshake that is so. Before
  it, it is not: the handshake itself returns no credit, so one that takes a fifth frame waits for bytes
  the host may not send, and always ends in the timeout (`RelayRuns.HandshakeStarves`); it is starved
  exactly after four frames (`RelayStarvation.HandshakeStarvedIff`), and only a server whose handshake
  fits its first four frames is ever relayed (`RelayStarvation.ConnectTakesFewFrames`). A browser's
  opening likewise has eight frames (`RelayRuns.OpeningStarves`).
- channel.go:94-98 skips empty frames, and pump.go:264-268 grants credit for client messages, not frames.
  So a relay can still starve: of the server's bytes exactly if its frames outnumber the reads they take
  past the handshake by eight (`RelayStarvation.StarvedIff`), which takes at least four empty frames
  (`RelayStarvation.FewEmptiesNeverStarve`, `RelayRuns.EmptyFramesStarve`); of the browser's exactly if
  its frames outnumber its whole messages by eight (`RelayStarvation.BrowserStarvedIff`,
  `RelayRuns.LongMessageStarves`).
- pump.go:66-72 calls the pump's 32 KiB buffer a tuning knob with no bearing on correctness. The read loop
  and a pump can come to wait for each other exactly if server frames may be longer than that buffer, or
  the browser's whole messages may outnumber its frames by 59 or more (`RelayDeadlock.DeadlockIff`): both
  let the host's window grow past the 64-slot receive queue. Short of that the plugin, in any phase and
  under any schedule, comes to rest only with everything delivered and each goroutine waiting for the
  host, or about to return an error (`RelayProgress.EveryScheduleEnds`, `RelayProgress.NoDeadlock`).

## Model

| member | source | states |
|---|---|---|
| `Bytes.ZerosInFront` | internal/ipc/codec.go:116-118 | the byte order of every number on the wire: the low byte is last, and zeros in front do not count |
| `Bytes.U32InOrder` | internal/ipc/codec.go:208-210 | four bytes are read so that numbers are ordered as their bytes are, first byte first; with the round trip that leaves one reading |
| `Stream.SplitPayload` | internal/transport/frame.go:49-66 | the chunks rebuild the input in order, none empty or over the ceiling, only the last may be short; a non-positive maximum means 1 MiB |
| `Stream.SplitIsSplit` | internal/transport/frame.go:49-66 | the recursive form meets that promise for every input and maximum |
| `Stream.SplitUnique` | internal/transport/frame.go:49-66 | no other list of chunks meets it |
| `Stream.SplitCount` | internal/transport/frame.go:49-66 | there are ceil(length / max) chunks |
| `Stream.CeilingMeans` | internal/transport/frame.go:49-66 | a channel without a maximum of its own takes frames of up to 1048576 bytes |
| `Stream.Conn.Read` | internal/transport/channel.go:87-149 | returns the next bytes of the stream and loses none; at most one payload per call, empty payloads skipped; an error only once nothing is left |
| `Stream.Conn.ReadFull` | internal/transport/channel.go:123-149 | io.ReadFull over Read: exactly n bytes iff they are there, whatever the frame boundaries; otherwise which error |
| `Stream.Conn.HandOff` | internal/transport/channel.go:107-117 | one chunk through the write pump: sent, or an error with the chunk sent or not |
| `Stream.Conn.Write` | internal/transport/channel.go:156-185 | on success exactly the split chunks are sent; on an error the sink has a gap-free prefix that covers the returned count and at most one further chunk |
| `Stream.StoppedBytes` | internal/transport/channel.go:151-185 | stopping at chunk k in terms of bytes: the count is whole chunks, and the sink holds a prefix of the input |
| `ClientMessage.ParseIff` | internal/rfb/clientmsg.go:79-154 | a message is parsed iff the stream starts with the serialisation of a well-formed one (RFC 6143, sections 7.5.1 to 7.5.6, and the 16 MiB limit); nothing after it is touched |
| `ClientMessage.CleanEndIff` | internal/rfb/errors.go:95-103 | a clean end of stream is reported iff the stream stops at a field boundary |
| `ClientMessage.FailIff` | internal/rfb/clientmsg.go:79-154 | which violation is reported, by type number and length, and how much has been read by then |
| `ClientMessage.CutAt` | internal/rfb/clientmsg.go:87-149 | in which field an incomplete message was cut, and whether that counts as a clean end |
| `ClientMessage.ParseAllSound` | internal/rfb/clientmsg.go:79-154 | every byte string splits into well-formed messages that spell what was consumed, then a tail that starts no message |
| `ClientMessage.ParseAllAppend` | internal/rfb/clientmsg.go:79-154 | serialised messages in front of any stream come back one for one |
| `ClientMessage.UniqueDecoding` | internal/rfb/clientmsg.go:79-154 | however a stream is cut into well-formed messages and a rest, these are the first messages parsed |
| `ClientMessage.ReadClientMessage` | internal/rfb/clientmsg.go:79-154 | reading from a connection gives the parse of its bytes: message or error, and what is left |
| `ClientMessage.ReadFixed` | internal/rfb/clientmsg.go:87-113 | the same for the fixed-size bodies |
| `ClientMessage.ReadSetEncodings` | internal/rfb/clientmsg.go:115-130 | the same for SetEncodings: header, then four bytes per encoding |
| `ClientMessage.ReadClientCutText` | internal/rfb/clientmsg.go:132-149 | the same for ClientCutText; an oversize length is refused after the header |
| `ReadOnlyFilter.KeepMeaning` | internal/relay/readonly.go:40-80 | input messages are dropped iff read-only, nothing else is, nothing is invented, and filtering twice is filtering once |
| `ReadOnlyFilter.DecideMeans` | internal/relay/readonly.go:40-80 | a message is dropped iff the session is read-only and its type is 4, 5 or 6 |
| `ReadOnlyFilter.ReadOnlyMeans` | internal/relay/readonly.go:69-111 | of a byte stream filtered in read-only mode the server parses exactly the messages sent of types 0, 2 and 3 |
| `ReadOnlyFilter.OutputReparses` | internal/relay/readonly.go:91-128 | re-parsing what the server received gives exactly the kept messages in order, with nothing left over; filtering is idempotent on bytes |
| `ReadOnlyFilter.OutputIsInputUnlessReadOnly` | internal/relay/readonly.go:69-111 | without read-only mode the server receives the input up to the last whole message |
| `ReadOnlyFilter.OutputMonotone` | internal/relay/readonly.go:118-128 | more input only extends the output |
| `ReadOnlyFilter.FateIrrelevant` | internal/relay/readonly.go:118-128 | which messages a stream holds does not depend on how its read side ends |
| `ReadOnlyFilter.FatalIff` | internal/relay/readonly.go:91-99 | a session is lost to a message iff its type is none of 0 and 2 to 6 |
| `ReadOnlyFilter.FilterOnce` | internal/relay/readonly.go:91-111 | one message is taken off the stream and forwarded unchanged, or dropped, or the error says why not; unknown types are fatal; on a write error a prefix of it went out |
| `ReadOnlyFilter.FilterAll` | internal/relay/pump.go:295-304 | the loop: every kept message reaches the server before it ends with the first error; one credit per message dealt with, also when a write fails, and then exactly how far the writes got |
| `ReadOnlyFilter.RunClientFilter` | internal/relay/readonly.go:113-128 | no error iff the stream ended at a field boundary and no write failed; in every other case all earlier kept messages were forwarded |
| `ReadOnlyFilter.PumpBrowserToServer` | internal/relay/pump.go:257-305 | the ClientInit byte first, then the filtered messages; always ends with an error; one credit per message dealt with, however it ends |
| `ReadOnlyFilter.PumpMeaning` | internal/relay/pump.go:257-305 | however the pump ends the server has a prefix of ClientInit followed by the kept messages, and all of it unless a write failed |
| `Codec.HeaderFields` | internal/ipc/codec.go:149-167 | the three header fields are read back from where they were written |
| `Codec.FrameLayout` | internal/ipc/codec.go:149-167 | a frame byte by byte: length, kind and channel id at their offsets, then the payload |
| `Codec.WellFormedMeans` | internal/ipc/codec.go:91-101 | what may be sent: kinds 1, 2 and 3 and up to 1048576 bytes |
| `Codec.DecodeIff` | internal/ipc/codec.go:149-233 | decoding yields a frame iff the stream starts with the encoding of that well-formed frame |
| `Codec.StopIff` | internal/ipc/codec.go:196-233 | which error a stream that starts no frame gets, in numbers, and that of a violation only the header has been read |
| `Codec.DecodeTotal` | internal/ipc/codec.go:196-233 | every byte string decodes into well-formed frames whose re-encoding is what was consumed; EOF iff nothing is left, UnexpectedEOF iff a header or payload is cut, a protocol violation iff the header is bad |
| `Codec.DecodeUnique` | internal/ipc/codec.go:196-233 | no other list of frames spells the stream |
| `Codec.DecodeAllAppend` | internal/ipc/codec.go:196-233 | encoded frames in front of any stream come back one for one |
| `Codec.Encode` | internal/ipc/codec.go:149-167 | fills one buffer with exactly the frame's encoding, or refuses a bad kind before a bad length |
| `Codec.Decode` | internal/ipc/codec.go:196-233 | reading from a connection is decoding its bytes; on a violation the payload has not been read |
| `Stdout.Demultiplexes` | cmd/xqs-vnc/wiring.go:52-63 | at every moment of every interleaving stdout decodes to the written frames, whose projection to each writer is what that writer sent so far, in order |
| `Stdout.RunKeepsInv` | cmd/xqs-vnc/wiring.go:52-63 | the invariant behind it: stdout is the encodings of the logged frames and part of the current one |
| `Stdout.PartialDecodes` | internal/ipc/codec.go:196-233 | part of a frame decodes to no frame, all of it to that frame |
| `Stdout.SyncWriter.Write` | cmd/xqs-vnc/wiring.go:52-63 | all bytes go out together, however the pipe takes them |
| `Stdout.SyncWriter.WriteFrame` | internal/ipc/codec.go:149-167 | one encoding reaches the wire iff the frame is well formed, nothing otherwise |
| `Version.ParseIff` | internal/rfb/version.go:93-124 | a line parses to a version iff it is that version's own 12-byte line |
| `Version.LineLayout` | internal/rfb/version.go:33-35 | the line character by character: RFB, three digits, a dot, three digits, a newline |
| `Version.ParseErrorIff` | internal/rfb/version.go:93-110 | which part of a bad line is blamed |
| `Version.AcceptIff` | internal/rfb/version.go:64-90 | accepted iff it is the line of a version with 1000 * major + minor >= 3008; below that the error names the version |
| `Version.ValueOfDigits` | internal/rfb/version.go:33-35 | what is printed with three digits is read back |
| `Version.DigitsOfValue` | internal/rfb/version.go:114-124 | three digits are what their value prints |
| `Version.ParseDigits3` | internal/rfb/version.go:114-124 | the decimal value iff all characters are digits |
| `Version.ParseVersion` | internal/rfb/version.go:93-110 | the version the line spells, or which part of it is wrong, in the order the source looks |
| `Version.ReadVersion` | internal/rfb/version.go:77-90 | takes exactly 12 bytes, refuses versions below 3.8 |
| `RfbHandshake.SelectMeaning` | internal/rfb/sectypes.go:103-132 | the choice is offered and supported, is VNCAuth when possible, and is missing only if nothing fits |
| `RfbHandshake.FallbackUnreachable` | internal/rfb/sectypes.go:122-132 | with the shipped list the fallback loop never finds a type |
| `RfbHandshake.ShippedChoice` | internal/rfb/sectypes.go:103-132 | by number: type 2 if offered, else type 1 if offered, else none |
| `RfbHandshake.SelectSecurityType` | internal/rfb/sectypes.go:103-132 | the two loops compute that choice |
| `RfbHandshake.ReadSecurityTypeList` | internal/rfb/sectypes.go:59-77 | a count byte and exactly that many types |
| `RfbHandshake.ReadReasonString` | internal/rfb/result.go:54-71 | the reason, or what was wrong with it; always a refusal |
| `RfbHandshake.ReadSecurityResult` | internal/rfb/result.go:30-48 | accepted iff the four bytes are zero; otherwise the reason |
| `RfbHandshake.HandshakeExact` | internal/rfb/handshake.go:31-85 | success iff the stream is a version line with 1000 * major + minor >= 3008, a non-empty list with type 1 or 2, 16 bytes of challenge iff 2 is offered, and four zero bytes; exactly those bytes are consumed |
| `RfbHandshake.AcceptingSucceeds` | internal/rfb/handshake.go:31-85 | on such a stream: which type, which bytes are written, what is left |
| `RfbHandshake.SuccessIsAccepting` | internal/rfb/handshake.go:31-85 | the converse, with the fields recovered |
| `RfbHandshake.NoWayBack` | internal/rfb/result.go:30-71 | once a reason string is due the handshake fails |
| `RfbHandshake.ReasonExact` | internal/rfb/result.go:54-71 | a refusal carries exactly the reason's text and reads nothing after it; one over 1 MiB is not read |
| `RfbHandshake.EmptyListRefused` | internal/rfb/handshake.go:42-52 | a server that offers no type is refused with the reason it gives, after the version line has been said and nothing else |
| `RfbHandshake.RejectionRefused` | internal/rfb/result.go:30-48 | a result other than zero is a refusal with the reason that follows, after the choice and the response |
| `RfbHandshake.UnknownTypesRefused` | internal/rfb/handshake.go:54-57 | a list without type 1 or 2 is refused with that list, before anything is chosen |
| `RfbHandshake.VersionRefused` | internal/rfb/handshake.go:31-35 | a line that is refused ends the handshake with its own error, before anything is said |
| `RfbHandshake.CutShort` | internal/rfb/handshake.go:31-85 | a good handshake cut anywhere is refused naming the field the stream ends in |
| `RfbHandshake.Handshake` | internal/rfb/handshake.go:31-85 | the ordered reads and writes give exactly the specified outcome, error, bytes written and bytes left; on a write error a prefix was written |
| `RfbHandshake.Negotiate` | internal/rfb/handshake.go:42-85 | the same from the security types on |
| `RfbHandshake.Prove` | internal/rfb/handshake.go:58-85 | the same from the choice on |
| `RfbHandshake.FrontshakeExact` | internal/rfb/frontshake.go:50-84 | success iff the browser sends a 3.8 line and None; exactly 13 bytes are consumed, so ClientInit is untouched; what the browser receives |
| `RfbHandshake.FrontRefusals` | internal/rfb/frontshake.go:55-77 | a browser that claims another version or chooses another type is declined with what it sent, and what it has been sent by then |
| `RfbHandshake.OfferExact` | internal/rfb/frontshake.go:66-84 | the same from the security types on |
| `RfbHandshake.Frontshake` | internal/rfb/frontshake.go:50-84 | the ordered writes and reads give exactly the specified outcome |
| `RfbHandshake.Offer` | internal/rfb/frontshake.go:66-84 | the same from the security types on |
| `HandshakeDuality.HandshakesAgree` | internal/rfb/frontshake.go:50-84 | Handshake against Frontshake, in every interleaving and chunking: never an error, at most 62 steps, and no step is left iff both succeeded with None; then both queues are empty |
| `HandshakeDuality.SomeoneMoves` | internal/rfb/handshake.go:31-85 | until both are done one of them can take a step |
| `HandshakeDuality.Step` | internal/rfb/handshake.go:31-85 | each step keeps both sides on the script and makes progress |
| `HandshakeDuality.Run` | internal/rfb/handshake.go:31-85 | the same over a whole run, whose length is bounded by the progress made |
| `Credit.StepKeepsInv` | internal/transport/credit.go:156-311 | every step of senders, grants and Close keeps credit conservation and loses no wakeup |
| `Credit.RunKeepsInv` | internal/transport/credit.go:156-311 | so does every run |
| `Credit.RunCounts` | internal/transport/credit.go:156-229 | what the channel counts as granted and written are the sums over the run's grants and successful encodes |
| `Credit.CreditSafety` | internal/transport/credit.go:156-229 | in every run: window + slots taken + frames the run wrote = initial credit + credit of the grants in the run; the window is never negative; while a sender sleeps on an open channel every credit has a woken sender, and nobody sleeps after Close |
| `Credit.StuckMeansHostOwes` | internal/transport/credit.go:148-170 | a sender asleep with nothing else to run means that every credit granted in the run is a frame on the wire |
| `Credit.AfterClose` | internal/transport/credit.go:302-311 | after Close the frames written are at most the sends already past the gate |
| `Credit.SendOutcome` | internal/transport/credit.go:156-216 | a send takes a slot iff the channel is open and has credit, sleeps iff it is open and has none, and otherwise changes nothing; TrySend never sleeps |
| `Credit.WakeOutcome` | internal/transport/credit.go:173-229 | a grant and the end of Close leave nobody asleep; a refund wakes one, if there is one |
| `Credit.CreditFrameLayout` | internal/transport/credit.go:238-256 | a credit frame byte by byte: kind 3, the channel's id, and in the payload the id and the credit |
| `Credit.RouteIff` | internal/transport/credit.go:415-455 | what a frame is taken for: data iff kind 2, credit iff kind 3 with an 8-byte payload naming its channel, otherwise which violation |
| `Credit.GrantRoundTrip` | internal/transport/credit.go:238-256 | a grant decodes and routes to the same number on the other side iff it fits 32 bits |
| `Credit.OpenDelivery` | internal/transport/credit.go:292-297 | on an open channel a frame goes behind those queued, or blocks the read loop iff 64 are |
| `Credit.LateDataDropped` | internal/transport/credit.go:287-297 | data after close is sure to be dropped iff the queue is full, and never blocks the read loop |
| `Credit.LateDataReceived` | internal/transport/credit.go:273-297 | late data that found room is handed to the reader after what was queued before it |
| `Credit.CreditChannel.EnterSend` | internal/transport/credit.go:156-171 | the whole new state of Send's first pass, and whether it refused the payload's size, took a slot, parked, or found the channel closed |
| `Credit.CreditChannel.ResumeSend` | internal/transport/credit.go:161-171 | the same after cond.Wait |
| `Credit.CreditChannel.Pass` | internal/transport/credit.go:161-171 | the loop head both share |
| `Credit.CreditChannel.TrySend` | internal/transport/credit.go:191-206 | never parks; too large, ErrClosed and ErrNoCredit exactly when they apply |
| `Credit.CreditChannel.FinishEncode` | internal/transport/credit.go:173-182 | a written frame, or a slot to refund |
| `Credit.CreditChannel.RefundSlot` | internal/transport/credit.go:173-182 | the slot comes back and one sleeper, if any, is woken |
| `Credit.CreditChannel.ReceiveCreditGrant` | internal/transport/credit.go:221-229 | the window grows by exactly n and all sleepers are woken; nothing happens for 0 |
| `Credit.CreditChannel.AdvanceClose` | internal/transport/credit.go:302-311 | the three steps of Close |
| `Credit.CreditChannel.GrantCredit` | internal/transport/credit.go:238-256 | which frame is emitted, and when none is |
| `Credit.CreditChannel.DeliverData` | internal/transport/credit.go:292-297 | the whole outcome, given which case the select takes when both are ready |
| `Credit.CreditChannel.Recv` | internal/transport/credit.go:273-285 | the queue is drained in order before the end is reported |
| `Credit.CreditChannel.HandleFrame` | internal/transport/credit.go:415-455 | routing by kind with the outcome of each; a violation changes nothing |
| `Coupling.GrantBands` | internal/relay/coupling.go:81-101 | none for an exhausted window, all of it from half the capacity, scaled in between |
| `Coupling.NoCapacity` | internal/relay/coupling.go:81-101 | a capacity of 0 or less grants the whole request for any window that is not exhausted |
| `Coupling.GrantBounds` | internal/relay/coupling.go:81-101 | between 0 and the request, for every capacity |
| `Coupling.GrantMonotone` | internal/relay/coupling.go:81-101 | monotone in the remaining credit |
| `Coupling.CouplingGrantIsOne` | internal/relay/coupling.go:71-79 | always exactly 1 |
| `Pump.DoHandshakes` | internal/relay/pump.go:137-171 | both handshakes in order with exact stream positions, one batch of credit between them, nothing sent to the browser if the first fails; on an error exactly what both streams look like; the deadlines are lifted on every path |
| `Pump.PumpServerToBrowser` | internal/relay/pump.go:226-255 | the browser gets the server's bytes in order and unchanged; one credit per read, except the one whose write failed; which end was reported |
| `Pump.OneReadPerSmallFrame` | internal/relay/pump.go:239-246 | for frames of 1 byte to 32 KiB reads, and so grants, are one per frame |
| `Pump.ReadCounts` | internal/transport/channel.go:123-149 | each Read brings the number of reads still needed down by one |
| `RelayLink.SendKeeps` | internal/transport/credit.go:292-297 | a frame sent is in its place behind those before it, and the window is one less |
| `RelayLink.DeliverKeeps` | internal/transport/credit.go:292-297 | a delivery moves the first frame on stdin to the end of the queue |
| `RelayLink.PumpKeeps` | internal/transport/channel.go:87-105 | the read pump takes frames in order and skips empty ones |
| `RelayLink.TakeKeeps` | internal/transport/channel.go:123-149 | a read hands out the next bytes and finishes at most one frame |
| `RelayLink.CloseKeeps` | internal/transport/credit.go:302-311 | closing, a returning read pump and a dropped frame lose nothing else |
| `RelayLink.LinkPrefix` | internal/transport/credit.go:292-297 | unless a frame was queued after a drop, what Read handed out is a prefix of what was sent |
| `RelayLink.LinkMeaning` | internal/transport/channel.go:87-149 | on one channel: window + unread frames = initial credit + grants - refused grants - finished frames, and every byte sent is taken or waiting, in order |
| `ClientMessage.PieceKeepsGrowing` | internal/rfb/clientmsg.go:79-154 | reading field by field never takes a byte past the message |
| `ClientMessage.WholeOrRefused` | internal/rfb/clientmsg.go:79-154 | where it stops there is a whole message, or one that every continuation leaves refused |
| `ClientMessage.WholeMissesNothing` | internal/rfb/clientmsg.go:79-154 | a whole message needs no further bytes |
| `Pacing.OneMessagePerFrame` | internal/relay/pump.go:295-304 | a browser that ends at most one message per frame is paced without slack |
| `Pacing.MessagesMonotone` | internal/relay/pump.go:295-304 | more bytes never hold fewer messages |
| `RelayInvariant.StepKeepsInv` | internal/relay/pump.go:137-305 | every step of host, read loop, read pumps, handshakes, both pumps and every way of ending keeps the invariant on credit and bytes |
| `RelayInvariant.RunKeepsInv` | internal/relay/pump.go:137-305 | so does every run |
| `RelayInvariant.GotMeaning` | internal/relay/pump.go:274-305 | what the upward pump has taken whole are the first messages of the browser's stream |
| `RelayWindow.WindowConservation` | internal/relay/pump.go:137-171 | after the handshake: window + unread frames + pending grant = 8 - handshake frames - empty frames - withheld grants - grants refused after close + partial reads, for any frames and either policy; the coupled grant withholds nothing, and nothing is refused before close |
| `RelayWindow.CirculatingCredit` | internal/relay/pump.go:226-255 | for frames of 1 byte to 32 KiB that is 8 - F, less what a closed channel refused, exactly; for non-empty frames never less; and F <= 4 |
| `RelayWindow.ParkedPumpLeavesCredit` | internal/relay/pump.go:153-163 | a pump parked on Read of an open channel with nothing in flight leaves the host at least four credits |
| `RelayWindow.BrowserWindow` | internal/relay/pump.go:295-304 | embed-stream: window + unread frames + pending grant = 8 - finished frames + whole messages - grants refused after close |
| `RelayWindow.ReadLoopNeverBlocks` | internal/transport/credit.go:287-297 | with server frames of up to 32 KiB and browser messages at most 56 ahead of frames, the read loop can deliver every item on stdin, of either channel, or drops it at a closed one |
| `RelayWindow.RelayIntegrity` | internal/transport/channel.go:87-185 | for any frames, timing and endings, unless a frame was queued after one dropped at a closed channel: the browser has a prefix of the server's bytes after the handshake; while the pump runs and none was dropped the rest is exactly what is under way |
| `RelayWindow.BrowserIntegrity` | internal/relay/pump.go:274-305 | likewise the server has a prefix of ClientInit and the kept messages of what the browser sent after its 13 handshake bytes |
| `RelayHistory.HostWindowIs` | internal/relay/pump.go:153-163 | in every run the host's window is its initial 4 or 8 and the grants the plugin issued before the channel was done (a batch of 4 after the handshake, then 1 per read or client message), less the frames it sent; never negative |
| `RelayHistory.PluginSendsWithinCredit` | internal/transport/credit.go:156-170 | in every run and every phase the plugin has sent no more frames than its initial window and the credit given to it; with stdin empty its window is exactly the rest |
| `RelayHistory.GateFollowsHost` | internal/session/backpressure.go:34-86 | in every run the last backpressure request on stdin, or the gate itself once all are delivered, is the last the host made, and go on before the first |
| `RelayHistory.GateBound` | internal/relay/pump.go:229-239 | from the delivery of a request to hold back to that of the resume the pump makes at most one more read, and none unless it was past the gate |
| `RelayHistory.ResumeOpens` | internal/relay/pump.go:229-239 | a delivered resume lets a waiting pump on |
| `RelayHistory.WritesFit` | internal/transport/channel.go:156-185 | each frame towards the browser is the next 64 KiB at most, each towards the server the next 1 MiB at most |
| `RelayEndings.ReadPumpReturnsIff` | internal/transport/channel.go:87-105 | in every run a read pump can return iff it holds a payload and its channel has been closed, or it has nothing left and its credit channel is done |
| `RelayEndings.DownReturnLoses` | internal/relay/pump.go:226-255 | a server-to-browser pump that has returned leaves out at most 32 KiB of what it took, and nothing once the chunk it had handed over is sent |
| `RelayEndings.UpReturnLoses` | internal/relay/pump.go:274-305 | a browser-to-server pump that has returned, its last chunk sent, has passed on ClientInit and every kept message it had taken whole, none being longer than a frame |
| `RelayStarvation.StarvedForever` | internal/relay/pump.go:153-163 | a handshake or pump waiting for the server with no window left reads and relays nothing until the relay ends |
| `RelayStarvation.BrowserStarvedForever` | internal/relay/pump.go:295-304 | likewise for the browser's bytes, in its handshake or the upward pump |
| `RelayStarvation.HandshakeStarvedIff` | internal/rfb/handshake.go:31-85 | a server handshake that has read all it was sent and waits for more is starved iff four frames were sent |
| `RelayStarvation.StarvedIff` | internal/relay/coupling.go:60-67 | a waiting pump is starved iff the server's frames outnumber the reads they take past the handshake by eight |
| `RelayStarvation.FewEmptiesNeverStarve` | internal/transport/channel.go:94-98 | with fewer than four empty server frames it never is |
| `RelayStarvation.BrowserStarvedIff` | internal/relay/pump.go:284-304 | whoever waits for the browser, in the opening or the pump, is starved iff its frames outnumber its whole messages by eight |
| `RelayStarvation.RunKeepsReads` | internal/relay/pump.go:239-246 | in every run the reads made are those the frames taken need, given where the handshake ended |
| `RelayStarvation.ConnectTakesFewFrames` | internal/relay/pump.go:146-170 | past the handshake, it lay within the server's first four frames; past the opening, that lay within the browser's first eight |
| `RelayBoundary.BoundaryExact` | internal/rfb/handshake.go:31-85 | in the running relay the bytes taken before relaying are to the byte one accepted server handshake |
| `RelayProgress.CatchesUp` | internal/relay/pump.go:137-305 | from every reachable state, in a handshake or relaying, by its own steps, credit and a resume only, the relay gets to where nobody waits for anything but bytes not yet sent or an error to return; the browser then has every byte and the server every kept message |
| `RelayProgress.NoDeadlock` | internal/relay/pump.go:137-305 | in every phase the plugin is at rest only with everything delivered (a lead of 58 lets a refused message hold it up) and each goroutine waiting for the host's credit, resume or bytes, or about to return an error |
| `RelayProgress.EveryScheduleEnds` | internal/relay/pump.go:137-305 | from every reachable state and under every schedule the plugin takes at most so many steps, counted from the state, before it is at rest |
| `RelayProgress.StepWorks` | internal/relay/pump.go:137-305 | each of its steps lowers that count |
| `RelayProgress.RestIsComplete` | internal/relay/pump.go:226-305 | at rest with nothing undelivered, a pump that waits for bytes has passed on everything there was |
| `RelayProgress.Settles` | internal/relay/pump.go:137-305 | credit and a resume always lead on to such a rest |
| `RelayRuns.Established` | internal/relay/pump.go:137-171 | a run through both handshakes to a relay with nothing in flight |
| `RelayRuns.HandshakeStarves` | internal/relay/pump.go:153-163 | a VNC-authenticating server that sends its handshake in five frames is starved before the last |
| `RelayRuns.OpeningStarves` | internal/rfb/frontshake.go:55-75 | so is a browser that sends its version line in more than eight |
| `RelayRuns.BareGrantStarves` | internal/relay/coupling.go:56-67 | granting with the bare policy starves the relay on small frames |
| `RelayRuns.EmptyFramesStarve` | internal/transport/channel.go:94-98 | four empty frames after a four-frame handshake starve it too |
| `RelayRuns.LongMessageStarves` | internal/relay/pump.go:295-304 | a client message cut into five frames starves the browser's side |
| `RelayRuns.DroppedFrameLeavesGap` | internal/transport/credit.go:292-297 | a frame queued after a drop: the browser's bytes are no prefix |
| `RelayDeadlock.DeadlockIff` | internal/relay/pump.go:66-73 | a state in which the read loop and a pump wait for each other is reachable iff server frames may exceed 32 KiB or browser messages may be 59 or more ahead of frames |
| `RelayDeadlock.BlockedIff` | internal/transport/credit.go:292-297 | the read loop can be blocked at all iff server frames may exceed 32 KiB or browser messages may be 57 or more ahead |
| `RelayDeadlock.DeadlockedForever` | internal/transport/credit.go:292-297 | from such a state nothing more gets through in that direction until the relay ends |
| `RelayDeadlock.DeadlockedIsBlocked` | internal/transport/credit.go:292-297 | such a state has a blocked read loop and fails what NoDeadlock promises |
| `RelayDeadlock.NoDeadlockBelow` | internal/relay/pump.go:226-305 | below both bounds no reachable state is deadlocked |
| `RelayDeadlock.LargeFramesDeadlock` | internal/relay/pump.go:239-246 | 63 server frames of 32 KiB and a byte, then a burst into a slow browser, deadlock |
| `RelayDeadlock.BurstDeadlocks` | internal/relay/pump.go:295-304 | a browser frame of 63 messages, then a burst while the server does not read, deadlocks |
| `Session.StepKeepsInv` | internal/session/lifecycle.go:189-230 | every step keeps: one goroutine in charge, and it or the session's fields know every open channel |
| `Session.RunKeepsInv` | internal/session/reconnect.go:30-80 | so does every run |
| `Session.ChannelBound` | internal/session/lifecycle.go:189-230 | in every interleaving at most two channels are open at the host, one per purpose, and at most one goroutine can ever open one |
| `Session.NoAttemptAfterTeardown` | internal/session/reconnect.go:30-62 | after a teardown only the connect under way can still open, at most the rest of its two channels |
| `Session.TeardownClosesEverything` | internal/session/teardown.go:47-71 | a teardown is sure to leave nothing open iff, when it takes the lock, no connect has a channel to open or one it has not stored |
| `Session.TeardownMisses` | internal/session/lifecycle.go:189-212 | from every other state there is a run that leaves a channel open |
| `Session.TeardownOfSettled` | internal/session/teardown.go:47-71 | from a settled state every run closes everything |
| `Session.TeardownCanMiss` | internal/session/lifecycle.go:189-212 | a reachable instance |
| `Session.OpensAgain` | internal/session/lifecycle.go:189-205 | a connect with a channel to open can still open it, torn down or not |
| `Session.DisconnectReported` | internal/session/teardown.go:85-113 | a disconnect is never reported as an error iff it meets a session that is neither connecting nor reconnecting |
| `Session.DisconnectCanBeReported` | internal/session/teardown.go:98-112 | a run in which a session that was up is disconnected and ends in the error state |
| `Session.RelayingIsReady` | internal/session/lifecycle.go:148-182 | a session whose relay runs, every earlier report made, is ready |
| `Session.EndIsReported` | internal/session/teardown.go:90-113 | when nobody is in charge any more a first connect that failed has been reported as an error, and a session that was up is torn down or its teardown waits for the lock |
| `Session.DeadCanBeReportedReady` | internal/session/lifecycle.go:175-182 | a run in which the last report of a session that is over and torn down is that it is ready |
| `SessionOutcome.RelaysAgainIff` | internal/session/reconnect.go:30-62 | in every reachable state a session can still come to a running relay iff a connect is under way that may succeed, or its relay was lost and nobody has torn it down |
| `SessionOutcome.RelaysAgain` | internal/session/lifecycle.go:189-230 | it does so by the steps of one goroutine if the host answers every call |
| `SessionOutcome.AttemptIsConnecting` | internal/session/reconnect.go:30-50 | throughout the first connect, and every reconnect attempt begun with all earlier reports made, the session is reported as connecting |
| `SessionOutcome.OneTeardown` | internal/session/teardown.go:42-71 | in every run only one teardown closes channels; one that finds the session torn down changes nothing |
| `SessionOutcome.RunKeepsIds` | internal/transport/open.go:119-141 | no two channels open at once share an id |
| `SessionOutcome.FailedConnectKeepsChannels` | internal/session/lifecycle.go:214-228 | a first connect that fails after storing its channels leaves both open, with the error reported and nobody in charge |
| `SessionObject.LiveSession.ClearPassword` | internal/session/teardown.go:115-123 | every byte of the buffer is zero, in place |
| `SessionObject.LiveSession.Teardown` | internal/session/teardown.go:47-71 | once: zeroes the password and closes the stored channels; a second call changes nothing |
| `SessionObject.LiveSession.CloseChannels` | internal/session/reconnect.go:64-80 | takes and closes the stored channels, with teardowns running in between |
| `SessionObject.LiveSession.OpenChannel` | internal/transport/open.go:119-141 | a channel of the asked purpose with a new id, not handed out again, is open, or nothing changed |
| `SessionObject.LiveSession.ConnectAndRelay` | internal/session/lifecycle.go:189-230 | both channels stored, or none and nothing left open, on every path; success iff both open, the embed surface is registered and the relay starts |
| `SessionObject.LiveSession.Reconnect` | internal/session/reconnect.go:30-62 | the loop ends within its budget of attempts, begins none once torn down and at most one more if torn down meanwhile; it reports connecting before each attempt, and ready once, last, only with both channels in place; it gives up only torn down, cancelled or with the window over |
| `SessionObject.LiveSession.ReportRelayEnded` | internal/session/teardown.go:90-113 | no-op once torn down; otherwise the attempts are reported and then, last, ready or error; with an error the session is torn down and, unless another teardown came first, nothing open |
| `SessionObject.AttemptBudget` | internal/session/reconnect.go:10-17 | the budget is ceil(window / backoff), 15 as shipped |
| `Deadline.StepKeepsInv` | internal/transport/deadline.go:58-104 | every step of set, wait and the timer keeps the invariant |
| `Deadline.RunKeepsInv` | internal/transport/deadline.go:58-104 | so does every run |
| `Deadline.DeadlineSafety` | internal/transport/deadline.go:41-104 | no channel is closed twice, a draining set always has a callback to wait for, every channel handed out is closed or current, a live timer targets the current one, and one that has fired has released it |
| `Deadline.SetTakesEffect` | internal/transport/deadline.go:53-95 | after set, waiting fails at once iff the time is past, an alarm is pending iff it is ahead, and earlier waiters are released or see the new deadline |
| `Deadline.FiringFinishes` | internal/transport/deadline.go:58-68 | a timer that has fired is never passed over: a set waits for its callback, and when that runs the channel is released |
| `Deadline.DeadlineTimer.WaitChannel` | internal/transport/deadline.go:97-104 | hands out the current channel |
| `Deadline.DeadlineTimer.BeginSet` | internal/transport/deadline.go:58-68 | set up to the drain; blocks iff the timer has fired |
| `Deadline.DeadlineTimer.FinishSet` | internal/transport/deadline.go:68-95 | set from the drain on; only an open channel is closed |
| `Deadline.DeadlineTimer.RunCallback` | internal/transport/deadline.go:85-91 | the callback closes an open channel |
| `Signals.GateRun` | internal/session/backpressure.go:73-112 | every run keeps each captured gate current or closed |
| `Signals.ArmedIff` | internal/session/backpressure.go:73-112 | in every run the gate is armed, and a reader that looks parks, iff the last request was to hold back |
| `Signals.WokenIff` | internal/session/backpressure.go:96-112 | a parked reader is woken by a resume and by nothing else |
| `Signals.NoMissedResume` | internal/session/backpressure.go:73-112 | without backpressure every parked reader can wake and then passes; no gate is closed twice |
| `Signals.ResumeReachesAll` | internal/session/backpressure.go:73-112 | a resume reaches everyone parked then, even if backpressure sets in again |
| `Signals.RegRun` | internal/transport/credit.go:378-412 | every run keeps the registration invariant |
| `Signals.FoundIff` | internal/transport/credit.go:378-412 | in every run the registry holds exactly the ids registered, and whoever looks finds exactly those |
| `Signals.SignalledIff` | internal/transport/credit.go:390-412 | a waiter is signalled by a registration and by nothing else |
| `Signals.NoMissedRegistration` | internal/transport/credit.go:378-412 | a waiter whose id is registered holds a closed signal and finds the channel; each signal is closed once |
| `Signals.Gate.SetActive` | internal/session/backpressure.go:73-86 | arms, or closes and clears; repeating either changes nothing |
| `Signals.Gate.Turn` | internal/session/backpressure.go:96-112 | one turn of the loop: clear to read, or parked on the current gate |
| `Signals.Registry.Add` | internal/transport/credit.go:378-384 | adds the channel, closes the signal, makes a new one |
| `Signals.Registry.Turn` | internal/transport/credit.go:391-412 | one turn of the wait: found, or waiting on the current signal |
| `RpcClient.DecimalInjective` | internal/ipc/client.go:171-174 | different sequence numbers print differently |
| `RpcClient.IdTextIs` | internal/ipc/client.go:171-174 | the n-th id is the prefix xqs-vnc- and n in decimal without leading zeros |
| `RpcClient.IdTextInjective` | internal/ipc/client.go:171-174 | so request ids are distinct |
| `RpcClient.StepKeepsInv` | internal/ipc/client.go:71-165 | every step of Call, Deliver and timeouts keeps the invariant |
| `RpcClient.RunKeepsInv` | internal/ipc/client.go:71-165 | so does every run |
| `RpcClient.Correlation` | internal/ipc/client.go:71-165 | pending is exactly the outstanding calls, a Deliver that found its call always completes (a full slot drops the response), a call returns the first response delivered for its own id, and that is one the host sent for it |
| `RpcClient.RunFromLooks` | internal/ipc/client.go:143-165 | in every run each response a Deliver holds or has put in is one that arrived for that very id |
| `RpcClient.HowItEnded` | internal/ipc/client.go:97-114 | in every run a call returns a response iff it took one from its slot, and none iff it timed out or its request could not be sent; it waits only after sending |
| `RpcClient.StrayResponseIgnored` | internal/ipc/client.go:143-165 | a response changes nothing iff its id is not outstanding |
| `RpcClient.Client.FreshId` | internal/ipc/client.go:171-174 | an id whose text no earlier call has |
| `RpcClient.Client.RegisterCall` | internal/ipc/client.go:79-82 | a fresh slot under the call's id |
| `RpcClient.Client.LookUp` | internal/ipc/client.go:143-154 | found iff the call is outstanding |
| `RpcClient.Client.PutResponse` | internal/ipc/client.go:156-165 | never blocks; a full slot drops the response |
| `RpcClient.Client.Await` | internal/ipc/client.go:97-114 | the slot's response, or the timeout |
| `RpcClient.Client.Leave` | internal/ipc/client.go:83-87 | the deferred removal from pending |

## Left out

- Stream.Conn: a connection is modelled as the payloads that arrive before its read side ends, and why
  it ends; when they arrive relative to other goroutines is the subject of `Relay`. A Read that
  fails with a timeout while data is still to come, and a later Read that succeeds, is not modelled.
- Stream.Conn.HandOff: a chunk still in Send when its Write gives up reaches the sink before that Write
  returns or not at all; in the source it may arrive a little later, though never after a chunk of a
  later Write.
- Stream.Conn.Read: the check for a closed channel before a payload that is already waiting is part of
  why the read side ends, not a separate step.
- Pump.DoHandshakes: when the deadline passes; that it does is one of the ways in which a read or write
  can fail.
- RelayProgress.CatchesUp: there is such a continuation; that the host gives the credit is up to it.
- RelayDeadlock.DeadlockIff: assumes the coupled grant the code issues, and that a version line fits a
  frame. Messages of other sessions on the same stdin are not in the system.
- Relay.Next: the handshake timeout, and a write to a channel already closed, are among the endings that
  may happen at any time; a write is not made to fail there.
- Session.ChannelBound: a channel counts as open at the host from an accepted channel.open until the
  close notification; the host closing channels by itself, and a session without a relay starter, are
  not modelled. Panic recovery is left out.
- SessionObject.LiveSession.Reconnect: the clock is abstract and never runs backwards.
- RpcClient.Correlation: the decoded response is an opaque number; JSON text and error objects are not
  modelled.
- Stdout.Demultiplexes: a failing stdout (a dead host) ends the process and is not modelled.
- Signals.Registry.Turn: the grace period is a step that may happen at any time.
- VNC authentication's DES response is a function of password and challenge that the theorems leave
  open.
- The writers for protocol versions before 3.8, WriteReason and ReadVersionLine: no caller in the relay.
- JSON encoding, connect parameters, redaction, logging, viewport and activity tracking, lifecycle
  replies, address formatting, the bundle packer and the UI: easy members or library work.
- Go's integer overflow: numbers are unbounded except the 16- and 32-bit fields on the wire and the
  truncation of a granted credit to 32 bits.
