# Dobot host protocol, modelled in Dafny

This project models the host side of the Dobot robot-arm protocol as the
`godobot` repository implements it. The same code exists in two Go copies,
package `godobot` (connector.go, dobot.go, protocol.go) and package `internal`
(internal/connector.go, internal/protocol.go), and there is a C++ reference
layer (cpp/DobotDll.cpp). The model proves properties of it:

- **Frame codec** (`Frame`, `Decoder`): the control byte and its flags, the frame
  `AA AA len id ctrl params checksum` that `writeMessage` writes, and the
  receive loop of `receiveGoRoutine`. The receive loop is a pure scan over a
  byte stream (`Decoder.ScanFrom`) and also an imperative method over the same
  stream (`Decoder.ReceiveAll`).
- **Request/response dispatch** (`Dispatch`): `sendMessage` makes up to three
  write-and-wait attempts and accepts only an ack with the request's id. The
  port is a script of write outcomes and the bytes it has accepted. The reader
  goroutine is a script of inbound events. `Connector` is a class that holds
  this state, and its methods are proved equal to the spec function
  `Exchange`. `OutMessage` is the caller's answer handle.
- **Queue-capacity state machines**: `GoProcess` models package godobot, which
  decrements `leftSpace` on every reply. `InternalProcess` models package
  internal, which adds the alarm gate, decrements only for queued messages,
  keeps re-querying the left space in a loop, and runs the alarm tick.
- **Command-id tables**: `Protocol` models the iota table of protocol.go and
  `InternalProtocol` the explicit table of internal/protocol.go.
- **Builders and decoders**: `Commands` covers the request builders and reply
  decoders of dobot.go. `Dll` covers the C++ calls: a `Library` class holds the
  static `isJointJog` and the communicator, and each call fills a heap
  `CMessage`.
- **Broadcast address** (`UdpSearch`): `calculateBroadcastIP`.

Files: `wrappers.dfy`, `bytes.dfy`, `frame.dfy`, `decoder.dfy`,
`dispatch.dfy`, `process.dfy`, `internal_process.dfy`, `protocol.dfy`,
`internal_protocol.dfy`, `commands.dfy`, `dll.dfy`, `udp_search.dfy`. There is
one module per file.

Scripts stand in for the outside world:

- Inbound traffic is a `seq<Event>`; a wait on an exhausted script is the
  3-second timer firing.
- Port writes are a `seq<bool>` of failures; a write past the end of that
  script succeeds.
- The C++ communicator is a `seq<Completion>`; an exhausted one reports
  `Timeout` and leaves the message alone.
- What a new C++ `Message` finds in its buffer is a parameter, `stale`, and it is the same for every call; in C each allocation may hold different garbage.

Integer widths are explicit: `uint8`, `uint32` and `uint64` are subset types,
and the uint32 decrement of `leftSpace` is written out with its wrap-around.

## Model

| member | source | states |
|---|---|---|
| Bytes.SumConcat | connector.go:165-172 | the byte sum the checksums use adds up over concatenation |
| Bytes.LeRoundTrip | connector.go:78-84 | reading back the k little-endian bytes of any n below 256^k gives n |
| Bytes.LeBytesOfValue | connector.go:78-84 | the little-endian bytes of a byte string's value are that byte string |
| Bytes.LeUint32 | connector.go:78-80 | `binary.LittleEndian.Uint32` is the uint32 whose four little-endian bytes are the first four bytes |
| Bytes.LeUint64 | connector.go:82-84 | `binary.LittleEndian.Uint64` is the uint64 whose eight little-endian bytes are the first eight bytes |
| Bytes.LeUint64OfBytes | connector.go:82-84 | the eight bytes of a uint64 read back as that uint64, whatever follows them |
| Frame.Ctrl | connector.go:38-47 | the control byte is below 4; bit 0 is set exactly when the message is a write, bit 1 exactly when it is queued |
| Frame.CtrlIsBitwiseOr | connector.go:39-46 | the flag bits are disjoint, so the arithmetic control byte equals the Go `|=` of 0x01 and 0x02 |
| Frame.SetCtrl | connector.go:49-56 | the write flag afterwards is the old flag or bit 0; the queued flag is the old flag or bit 1; id, params and AckLen are untouched |
| Frame.SetCtrlTestsBits | connector.go:50-53 | the Go tests `ctrl&0x01 != 0` and `(ctrl>>1)&0x01 != 0` read exactly bits 0 and 1 |
| Frame.SetCtrlOnlySets | connector.go:49-56 | SetCtrl never clears a flag |
| Frame.SetCtrlIgnoresHighBits | connector.go:49-56 | bits 2 to 7 of the control byte have no effect |
| Frame.SetCtrlInvertsCtrl | connector.go:38-56 | on a message with both flags clear, SetCtrl of Ctrl(m) reproduces m's write and queued flags |
| Frame.ChecksumOf | connector.go:165-172 | the checksum byte makes id + ctrl + parameters + checksum vanish mod 256 |
| Frame.ComputeChecksum | connector.go:165-172 | the 8-bit accumulating loop yields that checksum |
| Frame.Encode | connector.go:174-185 | a frame is six bytes longer than its parameters |
| Frame.EncodeLayout | connector.go:164-187 | the frame is two sync bytes, the length byte, id, ctrl, the parameters and the checksum, and its bytes from the id on sum to 0 mod 256 |
| Frame.ChunksMakeFrame | connector.go:174-185 | the four `port.Write` chunks concatenate to that frame |
| Frame.OversizeLengthByte | connector.go:174 | a parameter list longer than the receive buffer (up to 253 bytes) gets a length byte the receiver rejects |
| Decoder.Step | connector.go:192-241 | one pass of the receive loop either stops or moves strictly forward within the stream; a delivered frame spans at least six bytes |
| Decoder.ScanFrom | connector.go:189-244 | the receive loop from a position delivers at most one message per six remaining bytes, and nothing from past the end of the stream |
| Decoder.DecodeAsWritten | connector.go:189-244 | the loop as written delivers at most one message per six bytes, and wherever it does not panic it delivers exactly what the corrected decoder does |
| Decoder.Decode | internal/connector.go:263-267 | corrected decoder: at most one message per six bytes, each with a full 167-byte buffer that is zero past AckLen |
| Decoder.ReadParams | connector.go:237-239 | the fresh buffer holds the frame's parameter bytes followed by zeros up to 167 bytes |
| Decoder.PeekSum | connector.go:221-224 | the loop over the peeked bytes computes their sum mod 256 |
| Decoder.ReadFrame | connector.go:196-241 | the imperative pass of the loop body agrees with the spec function `Step` |
| Decoder.ReceiveAll | connector.go:189-244 | the receive loop over a finite stream delivers exactly what `ScanFrom` predicts, and reports whether it panicked |
| Decoder.ScanShift | connector.go:192-242 | decoding from a position depends only on the bytes from there on |
| Decoder.FrameStep | connector.go:196-240 | one pass of the receive loop over an encoded frame delivers that frame's message and resumes right after the frame |
| Decoder.FrameThenRest | connector.go:189-241 | an encoded frame is delivered whole, ahead of whatever follows it |
| Decoder.RoundTrip | connector.go:164-241 | decoding an encoded message of at most 167 parameter bytes yields that one message, with its id and flags, AckLen equal to the parameter count, and Data() equal to the parameters; the code as written does not panic on it |
| Decoder.DecodeAll | connector.go:189-242 | frames sent back to back are decoded in order |
| Decoder.LongLengthSkipped | connector.go:213-215 | a length byte of 0xAA or more drops the candidate and scanning resumes right after the length byte |
| Decoder.ChecksumMismatchSkipsThree | connector.go:225-229 | a checksum mismatch also discards the three bytes after the length byte, so scanning resumes six bytes after the frame's start, or stops at the end of the stream |
| Decoder.JunkPrefixSkipped | connector.go:200-202 | bytes other than the sync byte in front of the stream change nothing |
| Decoder.ScanWellFormed | connector.go:237 | every delivered message has a 167-byte buffer that is zero past AckLen |
| Decoder.CorrectedNeverPanics | connector.go:237-239 | the decoder that rejects length bytes 0 and 1 never panics |
| Decoder.CorrectionAgreesUnlessPanic | internal/connector.go:263-267 | wherever the code as written does not panic, the corrected decoder delivers the same messages |
| Decoder.ShortFramePanics | internal/connector.go:264-266 | length bytes 0 and 1 pass the checksum and make AckLen wrap past the buffer, so the code as written panics, guard included |
| Decoder.StraySyncLosesFrame | connector.go:200-215 | for every frame and whatever follows it, one stray sync byte in front makes the loop take the frame's second sync byte for an over-long length byte and skip its length byte; scanning resumes at the frame's id byte, with the frame's header consumed |
| Decoder.StraySyncExample | connector.go:200-229 | behind a stray sync byte, the frame of an empty message is not delivered at all |
| Dispatch.WriteFrame | connector.go:174-186 | a successful `writeMessage` appends the encoded frame; every write consumes a scripted outcome; inbound events and the counters are untouched |
| Dispatch.WriteAllAppends | connector.go:174-186 | writing only appends to what the port carried, and never more than the chunks hold |
| Dispatch.WriteAllNoFailures | connector.go:174-186 | with no scripted failure every write succeeds |
| Dispatch.Attempt | connector.go:249-266 | an attempt's ack has the request's id and the decoder's shape, and the inbound script stays well formed |
| Dispatch.AttemptReads | connector.go:250-266 | a write error reads nothing; otherwise exactly one scripted wait is consumed; an ack is that event; a miss is a timeout or another id; the counters are untouched |
| Dispatch.AttemptWrites | connector.go:250-252 | an attempt writes the whole frame unless a write fails, and nothing else |
| Dispatch.Exchange | connector.go:246-269 | an accepted ack carries the request's id and has the decoder's shape, and the inbound script stays well formed |
| Dispatch.ExchangeKeeps | connector.go:256-261 | `sendMessage` leaves the alarms alone; it changes `leftSpace` only by caching an accepted left-space reply as its little-endian uint32; it makes progress through the scripts |
| Dispatch.FirstMatch | connector.go:256-262 | reference rule: the index of the first of the next `limit` waits whose message has the wanted id |
| Dispatch.AckIsFirstMatch | connector.go:249-262 | an accepted ack is the first message with the request's id in the next `tries` waits |
| Dispatch.ExchangeIsFirstMatch | connector.go:246-269 | with no write error, `sendMessage` returns exactly the first matching message of the next three waits, or `(nil, nil)` with `leftSpace` unchanged when there is none |
| Dispatch.WriteErrorNeedsFailure | connector.go:250-252 | a write error is returned only when the port fails |
| Dispatch.FirstWriteFails | connector.go:250-252 | a failing first write ends `sendMessage` at once, with nothing sent and nothing read |
| Dispatch.WritesAtMostOneFramePerTry | connector.go:249-251 | each attempt writes at most one frame, and writing only appends |
| Dispatch.WritesAtMostThreeFrames | connector.go:248-249 | `sendMessage` writes at most three frames |
| Dispatch.FirstFrameWritten | connector.go:249-252 | with no write error, the request's frame is the first thing written |
| Dispatch.ReplyAtOnce | connector.go:256-261 | with the awaited reply next in line, one frame goes out, one event is consumed and the ack is returned; a left-space reply is cached |
| Dispatch.WritesDependOnScript | connector.go:174-186 | whether writes succeed depends only on the failure script and the number of chunks |
| Dispatch.AttemptOnlyId | connector.go:257 | an attempt sees the same thing for two requests with the same id |
| Dispatch.OnlyIdIsCompared | connector.go:257 | two requests with the same id get the same outcome and consume the same events, whatever their flags, parameters or the bytes already sent |
| Dispatch.RwIsNotCompared | connector.go:257 | flipping the read/write flag changes only the bytes written, not the outcome |
| Dispatch.Query | connector.go:294 | the left-space query is a non-queued read with no parameters and the left-space id |
| Dispatch.Decrement | connector.go:289 | `leftSpace--` on a uint32 subtracts one from a positive counter and wraps 0 to 2^32 - 1 |
| Dispatch.Connector.constructor | connector.go:127-162 | a connector opened on the scripts starts with nothing sent, `leftSpace` 0 and no alarms |
| Dispatch.OutMessage.constructor | connector.go:318-324 | `SendMessage` wraps the message in a handle with a fresh open channel and nothing delivered |
| Dispatch.Connector.Write | connector.go:174-185 | one `port.Write` changes the connector exactly as `WriteChunk` says |
| Dispatch.Connector.WriteMessage | connector.go:164-187 | the checksum loop and the four writes change the connector exactly as `WriteFrame` says |
| Dispatch.Connector.Wait | connector.go:253-266 | a wait takes the next scripted event, or times out and changes nothing on an exhausted script |
| Dispatch.Connector.AttemptOnce | connector.go:250-266 | one pass of the retry loop changes the connector exactly as `Attempt` says |
| Dispatch.Connector.SendMessage | connector.go:246-269 | the retry loop leaves the connector in the state `Exchange` predicts, with its outcome |
| Dispatch.Notify | connector.go:99-109 | `Reply` and `Error` do nothing on a nil channel, deliver on an open one, and hit a closed one |
| Dispatch.CloseHandle | internal/connector.go:113-118 | `Close` closes the channel and keeps what was delivered; package internal also sets `done` to nil |
| Dispatch.ClearedCloseSilences | internal/connector.go:101-118 | after the internal `Close`, any `Reply` or `Error` is a no-op |
| Dispatch.UnclearedCloseExposes | connector.go:99-115 | after the godobot `Close`, a further `Reply` or `Error` sends on the closed channel and delivers nothing |
| Dispatch.SendOnClosedStays | connector.go:99-115 | once a send has hit the closed channel, nothing further changes |
| Dispatch.OpenHandleDelivers | connector.go:99-109 | before any close, the routine hands every answer to the handle's channel in order; the caller's `SendMessage` reads only the first, then closes the handle |
| Dispatch.OutMessage.Reply | connector.go:99-103 | the handle changes exactly as `Notify` with a reply says |
| Dispatch.OutMessage.Error | connector.go:105-109 | the handle changes exactly as `Notify` with an error says |
| Dispatch.OutMessage.Close | internal/connector.go:113-118 | the handle changes exactly as `CloseHandle` says for its package |
| GoProcess.LeftSpaceIdFromTable | connector.go:294 | the query id used is the iota table's `ProtocolQueuedCmdLeftSpace` |
| GoProcess.SendCounted | connector.go:284-292 | sending and counting always gives the caller exactly one answer, and stops the routine exactly on a write error |
| GoProcess.Handle | connector.go:280-312 | the routine's handling of one message as a function of the link; the inbound script stays well formed; what the caller hears is stated by `HandleAnswers` and the lemmas after it |
| GoProcess.HandleMessage | connector.go:280-312 | the loop body for one queued message leaves the connector, the outcome and the caller's handle as `Handle` predicts |
| GoProcess.SendAndCount | connector.go:284-292 | send, then reply and decrement or report the error, as `SendCounted` predicts |
| GoProcess.HandleAnswers | connector.go:280-312 | the caller hears at most one answer; no answer only for a queued message at `leftSpace == 0`; a reply carries the request's id; the routine stops exactly on a write error; alarms are untouched |
| GoProcess.QueuedAtZeroAsksFirst | connector.go:293-295 | a queued message at `leftSpace == 0` first writes the left-space query |
| GoProcess.ReportedZeroRefuses | connector.go:298-301 | a reported 0 gives "left space is 0", and the message itself is never written |
| GoProcess.UnansweredQueryLeavesCallerWaiting | connector.go:293-312 | an unanswered left-space query gives the caller no answer at all, and the routine moves on |
| GoProcess.EveryReplyDecrements | connector.go:258-307 | every reply decrements `leftSpace` as a uint32, queued or not: the cached counter when the message goes out directly, for a queued message at 0 the positive room the answered query reported, and for a reply to the left-space query (`GetQueuedCmdLeftSpace`) the room that reply carries, which `sendMessage` cached first |
| GoProcess.NonQueuedReplyWraps | connector.go:282-289 | a non-queued reply at `leftSpace == 0` wraps the counter to 2^32 - 1 |
| GoProcess.WrappedCounterSkipsQuery | connector.go:282-284 | with the counter wrapped, a queued message goes out without the left-space query |
| InternalProcess.IdsFromTable | internal/connector.go:282 | the alarm and left-space ids are the explicit table's |
| InternalProcess.FirstAlarm | internal/connector.go:292-297 | reference rule: the first index whose alarm byte is nonzero, or none when all are zero |
| InternalProcess.FindAlarm | internal/connector.go:292-297 | the `range` loop with its `break` finds exactly that index |
| InternalProcess.FirstAlarmIsUnique | internal/connector.go:292-297 | a nonzero byte preceded only by zeros is the first alarm |
| InternalProcess.AlarmAnswers | internal/connector.go:292-297 | the gate reports at most one alarm, and none exactly when all bytes are zero |
| InternalProcess.AlarmsQuery | internal/connector.go:282 | the alarm request is a non-queued read with no parameters |
| InternalProcess.SendLoop | internal/connector.go:299-328 | corrected send loop as a function of the link; the inbound script stays well formed; its answers are stated by `SendLoopAnswers`, its counter by `QueuedReplyDecrements` and `NonQueuedKeepsCounter` |
| InternalProcess.Handle | internal/connector.go:291-328 | the alarm report, if any, comes before everything the send loop answers |
| InternalProcess.Tick | internal/connector.go:281-288 | the ticker's request as a function of the link; the inbound script stays well formed; its effect on `Alarms` is stated by `TickReplacesAlarms` and `TickWithoutReply` |
| InternalProcess.AlarmTick | internal/connector.go:281-288 | the tick changes the connector as `Tick` predicts |
| InternalProcess.HandleMessage | internal/connector.go:291-328 | the loop body leaves the connector, the outcome and the handle as `Handle` (alarm gate, then send loop) predicts |
| InternalProcess.RunSendLoop | internal/connector.go:299-328 | the inner `for` loop leaves the connector, the outcome and the handle as `SendLoop` predicts |
| InternalProcess.AlarmThenSend | internal/connector.go:292-314 | a raised alarm is reported first as "alarm: i-v" for the first nonzero byte, and the message still goes through the send loop |
| InternalProcess.AlarmedMessageStillSent | internal/connector.go:292-309 | with an alarm raised and the device answering a non-queued message, the message is written and the routine sends the alarm error and then the reply to the handle; the caller reads only the first |
| InternalProcess.NonQueuedKeepsCounter | internal/connector.go:300-309 | a non-queued message leaves `leftSpace` unchanged, whatever happens, unless it is the left-space query itself, whose answer `sendMessage` caches |
| InternalProcess.QueuedReplyDecrements | internal/connector.go:302-307 | a reply to a queued message sent with room left takes exactly one off, without wrap-around |
| InternalProcess.ReportedZeroRefuses | internal/connector.go:321-325 | a reported 0 gives `ErrLeftSpace`, and the message is not written |
| InternalProcess.ReportedRoomSends | internal/connector.go:321-327 | a reported room above 0 opens the gate, and the next pass sends |
| InternalProcess.TimeoutsRepeatQuery | internal/connector.go:315-328 | three timeouts send the query three times, and the loop asks again |
| InternalProcess.AttemptTimesOut | internal/connector.go:211-213 | with writes succeeding, a timeout next in line makes the attempt miss |
| InternalProcess.SilentDeviceHangs | internal/connector.go:299-328 | for a queued message at `leftSpace == 0` with nothing more coming from the device, the loop never ends and the caller never hears back |
| InternalProcess.SendLoopAnswers | internal/connector.go:299-328 | the send loop answers at most once, stops the routine exactly on a write error, and gives no answer when it hangs |
| InternalProcess.TickReplacesAlarms | internal/connector.go:284-287 | an answered tick replaces `Alarms` with the reply's Data() |
| InternalProcess.TickWithoutReply | internal/connector.go:284-286 | an unanswered tick leaves `Alarms` unchanged; a write error stops the routine |
| Protocol.Base | protocol.go:6-202 | every group base is a multiple of ten no larger than 240 |
| Protocol.Iota | protocol.go:6-202 | iota on a command's line is between 1 and 10, because the base line takes 0 |
| Protocol.GoIdKnownValues | protocol.go:8-21 | `ProtocolDeviceSN` is 1, `ProtocolDeviceName` 2 and `ProtocolGetPose` 11 |
| Protocol.GoCurrentIndexId | protocol.go:192-199 | `ProtocolQueuedCmdCurrentIndex` is 247 |
| Protocol.GoLeftSpaceId | protocol.go:192-200 | `ProtocolQueuedCmdLeftSpace` is 248 |
| Protocol.GoIdOffByOne | protocol.go:8-24 | every iota id is one more than its `Base + k` comment, except in the two groups whose comments count from one |
| Protocol.GoId | protocol.go:6-202 | every iota command id lies strictly above its group base and at most ten above it |
| Protocol.PtpPoWithLHitsCpBase | protocol.go:86-91 | `ProtocolPTPPOWithLCmd` equals `ProtocolFunctionCPBase`, a base of another group |
| InternalProtocol.Offset | internal/protocol.go:8-202 | the offset written on each line is at most 9 |
| InternalProtocol.FromIdInverse | internal/protocol.go:6-202 | the reverse table reads every command's id back as that command |
| InternalProtocol.InternalIdInjective | internal/protocol.go:6-202 | no two commands share an id |
| InternalProtocol.InternalIdKnownValues | internal/protocol.go:9-21 | DeviceSN is 0 and GetPose 10; DeviceTime is 4, DeviceInfo 6, and 5 names no command |
| InternalProtocol.InternalLeftSpaceId | internal/protocol.go:200 | QueuedCmdLeftSpace is 247 |
| InternalProtocol.InternalMotionFinishId | internal/protocol.go:201 | QueuedCmdMotionFinish is 248 |
| InternalProtocol.InternalId | internal/protocol.go:6-202 | each explicit id lies in the ten slots from its group base |
| InternalProtocol.InternalIdNoBaseCollision | internal/protocol.go:6-202 | no command takes the base of a group other than its own |
| InternalProtocol.GoIdIsInternalPlusOne | internal/protocol.go:9 | for every shared name the iota id is the explicit id plus one |
| InternalProtocol.GoIdInjective | protocol.go:6-202 | the iota ids are pairwise distinct |
| InternalProtocol.GoIdNamesNextCommand | protocol.go:9-13 | a device using the explicit table reads the iota DeviceSN id as DeviceName, and the iota DeviceTime id as no command |
| InternalProtocol.GoPtpPoWithLNamesCpParams | protocol.go:86 | the iota `PTPPOWithLCmd` reaches such a device as CPParams |
| InternalProtocol.GoCurrentIndexNamesLeftSpace | protocol.go:199 | the iota current-index id is the explicit left-space id |
| InternalProtocol.GoLeftSpaceNamesMotionFinish | protocol.go:200 | the iota left-space id is the explicit motion-finish id |
| Commands.GuardsArePackedSizes | dobot.go:468 | the `Get*` length guards (16, 12, 32, 12) are the packed sizes of HOMEParams, EndEffectorParams, JOGJointParams and PTPJump2Params; the other guards are at dobot.go:933, 1416 and 2276 |
| Commands.ArgumentSizes | types.go:187-193 | PTPCmd packs to 17 bytes, ParallelOutputCmd to 4, WAITCmd to 4 and JOGLParams to 8 |
| Commands.CString | dobot.go:97 | the string a C reader sees is a NUL-free prefix that ends at the first NUL |
| Commands.SetStringRequest | dobot.go:86-101 | an empty string is refused; otherwise the string's bytes and one 0 byte go out as a non-queued write (also SetDeviceName and SetWIFISSID) |
| Commands.TerminatedStringReadsBack | dobot.go:96-97 | whatever padding follows the terminator, the C string read back is the string written |
| Commands.StringRequestReachesDevice | dobot.go:95-99 | the device decoding the setter's frame holds the string and its terminator, and reads the string back |
| Commands.GetStringAsWritten | dobot.go:122-133 | as written: a transport error is passed on; otherwise the whole parameter buffer comes back, as long as the buffer, with Data() at its front |
| Commands.GetString | dobot.go:122-133 | corrected getter: a transport error is passed on; otherwise the result is the NUL-free front of Data() that runs up to its first NUL or its end, the whole C string |
| Commands.StringGetterReturnsBuffer | dobot.go:132 | as written, the getter returns the whole 167-byte buffer (string, terminator and zero padding), never the string itself |
| Commands.StringGetterReadsString | dobot.go:122-133 | the corrected getter returns exactly the string the device sent |
| Commands.QueuedIndex | dobot.go:443-450 | a transport error is passed on; "invalid response" exactly when fewer than 8 bytes arrive; otherwise the index is the little-endian uint64 of the first eight bytes |
| Commands.QueuedIndexGuardIsDead | dobot.go:446-448 | received buffers are always 167 bytes long, so that guard never fires |
| Commands.QueuedIndexReadsBack | dobot.go:449 | a reply carrying the eight bytes of n yields n |
| Commands.SetTwoFlagsRequest | dobot.go:986-998 | the laser, suction-cup and gripper setters send the two flags as 1 or 0 bytes, as a write with the caller's queued flag |
| Commands.GetTwoFlags | dobot.go:1017-1031 | the two-flag getters: "invalid response" exactly when fewer than two bytes arrive, otherwise the first two bytes read as booleans |
| Commands.TwoFlagsReadBack | dobot.go:986-1031 | a reply carrying the setter's payload reads back as the same two flags |
| Commands.GetDeviceVersion | dobot.go:211-223 | the four version bytes are the front of Data(); with AckLen below 4 the code panics |
| Commands.SetDeviceWithLRequest | dobot.go:226-236 | a queued write of the flag byte and the version byte |
| Commands.DeviceWithLIndex | dobot.go:237-243 | the index is the uint64 of the first eight bytes of Data(); with AckLen below 8 the code panics |
| Commands.ShortReplyPanicsOnlyUnguarded | dobot.go:241-242 | on the same short reply the guarded read of the index succeeds, while `SetDeviceWithL`'s read of Data() panics |
| Commands.GetStruct | dobot.go:458-476 | the `Get*` readers: "invalid response" exactly when fewer than `size` bytes arrive, otherwise the first `size` bytes |
| Commands.StructGuardIsDead | dobot.go:468-470 | no struct read is larger than the 167-byte buffer, so those guards never fire |
| Commands.StructReadsBack | dobot.go:471-472 | a struct the device echoes back is read unchanged |
| Commands.SetStructRequest | dobot.go:430-441 | a nil struct is refused; otherwise its packed bytes go out as a write with the caller's queued flag |
| Commands.SetWAITCmdRequest | dobot.go:2860-2872 | the request is always queued, whatever the caller asks, and carries the four packed bytes |
| Commands.SetJOGLParamsRequest | dobot.go:1596-1609 | the request is never queued |
| Commands.JOGLParamsIndex | dobot.go:1611-1612 | the returned index is always 0, and the error is passed on |
| Commands.SetPTPPOCmdRequest | dobot.go:3659-3672 | a nil PTP command is refused; otherwise a queued write of the 17 command bytes, the output count as a byte, and four bytes per output |
| Commands.ParsePTPPO | dobot.go:3669-3671 | how a device reads that payload: 17 command bytes, a count byte, and that many four-byte outputs |
| Commands.PTPPORoundTrip | dobot.go:3669-3672 | with fewer than 256 outputs the device recovers the command and every output |
| Commands.PTPPOCountWraps | dobot.go:3670 | with 256 or more outputs the count byte has wrapped, and the device sees fewer outputs |
| Dll.Next | cpp/DobotDll.cpp:177-192 | once the communicator's script is exhausted, every wait completes with `Timeout` and no reply |
| Dll.Filled | cpp/DobotDll.cpp:177-192 | copying a reply into the buffer keeps the buffer's size |
| Dll.CopyOut | cpp/DobotDll.cpp:248-254 | the copy into the caller's buffer touches nothing past `maxLen` |
| Dll.CopyString | cpp/DobotDll.cpp:248-254 | the `strcpy` branch and the `memcpy`-plus-terminator branch leave the caller's buffer exactly as `CopyOut` of the reply string describes |
| Dll.CopyOutTruncates | cpp/DobotDll.cpp:248-254 | the caller's buffer holds the reply string cut to at most `maxLen - 1` characters, a prefix of it, terminated within `maxLen` bytes |
| Dll.LastActive | cpp/DobotDll.cpp:1730-1732 | reference rule: the position of the last non-idle jog command |
| Dll.JogModeIsLastActive | cpp/DobotDll.cpp:1720-1732 | after a run of `SetJOGCmd` calls the static mode is the `isJoint` of the last non-idle command, or the earlier mode when all were idle |
| Dll.Laid | cpp/DobotDll.cpp:729 | copying a payload to the front of the buffer keeps its size and leaves the rest stale |
| Dll.PTPPOParamsLenAsWritten | cpp/DobotDll.cpp:2298 | the length as written is the 18 bytes of command and count plus whole outputs, and falls below those 18 bytes exactly when the count is negative |
| Dll.PTPPOParamsLen | cpp/DobotDll.cpp:2291-2298 | corrected length: at least the 18 bytes of command and count, plus whole outputs, more exactly when outputs are given with a positive count |
| Dll.PTPPOPayload | cpp/DobotDll.cpp:2291-2297 | what SetPTPPOCmd copies: the 17 command bytes first, and as many bytes as the corrected length counts |
| Dll.PTPPOCorrectedReadsBack | cpp/DobotDll.cpp:2291-2298 | with the length evidently intended, the message carries exactly the copied bytes, and the device reads back the command and exactly the outputs given |
| Dll.PTPPOAsWrittenSendsStale | cpp/DobotDll.cpp:2292-2298 | as written, a NULL `parallelCmd` with a count of 2 writes a count byte of 0 but sends 26 bytes, eight of them stale buffer contents |
| Dll.PTPPOAsWrittenNegativeCount | cpp/DobotDll.cpp:2298 | as written, a negative count cuts the length below the command and its count byte |
| Dll.Poll | cpp/DobotDll.cpp:4871-4875 | `SendPluseEx`'s polling as a function of the completions: it takes at least one poll |
| Dll.PollStopsAtTarget | cpp/DobotDll.cpp:4871-4875 | polling stops at the first poll that fails or reports an index at least the pulse's; every earlier poll succeeded below it; a `NoError` result means the device reached the index |
| Dll.Repeat | cpp/DobotDll.cpp:4871-4875 | n copies of the poll request |
| Dll.CMessage.constructor | cpp/DobotDll.cpp:237 | a new message's buffer holds whatever the allocator left there |
| Dll.Library.constructor | cpp/DobotDll.cpp:1720 | the library starts with the static `isJointJog` false, nothing sent, and the communicator's script |
| Dll.Library.Execute | cpp/DobotDll.cpp:177-192 | the message as filled in goes to the communicator; the next completion's reply is copied to the front of the buffer and sets `paramsLen` |
| Dll.Library.Transact | cpp/DobotDll.cpp:237-245 | a call's message with its fields set and its payload at the front of the stale buffer is sent cut to `paramsLen`; the buffer afterwards holds the reply |
| Dll.Library.CopyIndex | cpp/DobotDll.cpp:736-738 | the index is written only for a queued call with a non-NULL pointer, as the uint64 of the buffer's first eight bytes |
| Dll.Library.GetDeviceSN | cpp/DobotDll.cpp:228-254 | NULL or `maxLen == 0` gives InvalidParams and nothing is sent; otherwise the caller's buffer is `CopyOut` of the reply string |
| Dll.Library.GetAlarmsState | cpp/DobotDll.cpp:648-670 | `*len` is the full reply length, while only `min(len, maxLen)` bytes are copied and the rest of the buffer is untouched |
| Dll.Library.SetHOMEParams | cpp/DobotDll.cpp:715-738 | always sent queued, whatever the caller asks, and the index is always written to a non-NULL pointer |
| Dll.Library.SetJOGLParams | cpp/DobotDll.cpp:1575-1598 | always sent non-queued, and the index is never written |
| Dll.Library.SetJOGCmd | cpp/DobotDll.cpp:1717-1747 | a non-idle command sets the static mode; `[isJointJog, cmd]` goes out with the caller's queued flag; a queued call writes the reply's index to a non-NULL pointer, and otherwise the index is untouched |
| Dll.Library.SetPTPPOCmd | cpp/DobotDll.cpp:2277-2306 | always queued; the message sent is the copied payload on the stale buffer, cut to the length as written; the reply's index is written to a non-NULL pointer; a NULL command leaves it untouched |
| Dll.Library.SetLostStepParams | cpp/DobotDll.cpp:4512-4530 | always queued; the index is written with no NULL check |
| Dll.Library.SetLostStepCmd | cpp/DobotDll.cpp:4546-4563 | always queued; the index is written with no NULL check |
| Dll.Library.GetQueuedCmdCurrentIndex | cpp/DobotDll.cpp:4446-4465 | NULL gives InvalidParams; otherwise the index is the uint64 the completion leaves in the buffer |
| Dll.Library.SendPluse | cpp/DobotDll.cpp:4819-4844 | a NULL command, or a queued call with a NULL index, gives InvalidParams before anything is sent; only a queued call writes the index |
| Dll.Library.AwaitIndex | cpp/DobotDll.cpp:4871-4875 | the polling loop returns the status and sends the polls that `Poll` predicts |
| Dll.Library.SendPluseEx | cpp/DobotDll.cpp:4860-4875 | the pulse is sent queued; if that fails its status is returned; otherwise the polls `Poll` predicts follow, and the last status is returned |
| UdpSearch.To4 | udpsearch.go:86 | an address is IPv4 exactly when it has 4 bytes, or 16 bytes with the IPv4-mapped prefix; its IPv4 form is its last four bytes |
| UdpSearch.Broadcast | udpsearch.go:91-94 | the broadcast address is as long as the interface address; its bytes are stated by `BroadcastIsBytewise` |
| UdpSearch.BroadcastIsBytewise | udpsearch.go:92-94 | byte i of the broadcast address is `ip[i] | ^mask[i]` |
| UdpSearch.NetworkPartPreserved | udpsearch.go:93 | under the mask, the broadcast address agrees with the interface address |
| UdpSearch.HostBitsAllSet | udpsearch.go:93 | the broadcast address OR the mask is all ones |
| UdpSearch.BroadcastIdempotent | udpsearch.go:93 | the broadcast address is its own broadcast address in the same subnet |
| UdpSearch.CalculateBroadcastIP | udpsearch.go:85-96 | nil exactly when the address is not IPv4; otherwise a fresh 4-byte array whose contents are `Broadcast` of the address |

## Left out

- Goroutines, channels, `select` and `time.After` are left out: inbound traffic is a scripted event sequence and a timeout is an event. The `ctx.Done` branch that never exits (connector.go:276-277), `sendMessage`'s `case <-ctx.Done(): return nil, ctx.Err()` (connector.go:254-255) and the receive loop's `ctx.Err()` check (connector.go:193-195) are not modelled.
- The blocking of a second send on `done` after an alarm error (internal/connector.go:294-309) is left out. `SendMessage` reads `done` once and then closes the handle (connector.go:318-324, internal/connector.go:334-340), so the caller receives only the first answer. `OutMessage` records every answer the routine sends in order and does not model whether the caller is still receiving.
- Serial and UDP I/O are left out: `Open` (connector.go:127-162, internal/connector.go:130-164) and `SearchDobot` (udpsearch.go:15-82). The port is a script of write outcomes and the bytes it has accepted.
- The receive loop's I/O errors are left out. `bufio` reads on a finite stream stop at its end, and a `Peek` past the end ends the loop.
- The Qt bridge of cpp/DobotDll.cpp (`QMetaObject::invokeMethod` and the `processEvents` polling, lines 9-192) is one abstract call, `Dll.Library.Execute`. The `fg_DebugEnable` and `qDebug` logging is left out.
- The C++ header, the communicator and the `Message` struct are not part of this model. The buffer size is taken as 167, the receive buffer size. Status codes are abstract values. An exhausted completion script reports `Timeout`.
- Float fields and `binary.Read`/`binary.Write` reflection are opaque fixed-size byte blocks. types.go supplies only the packed sizes. `Message.Reader`, `Read`, `Bool`, `Uint16`, `Float32` and `Float64` are left out.
- The other getter and setter wrappers of dobot.go and cpp/DobotDll.cpp repeat the modelled patterns and are left out. The C++ `SetDeviceSN` is among them.
- The compile gap at dobot.go:3284, where `ProtocolInfraredSensor` is not defined in protocol.go, is not modelled.
- example/robot.go, example/main.go and draw/trajectory.go are context and are not modelled.
- Dispatch.InboundWellFormed: inbound messages are assumed to have the decoder's shape (a 167-byte buffer, zero past AckLen), because the decoder and `sendMessage` are modelled separately.
- Dll.Library.GetDeviceSN: `strlen` on a buffer with no NUL reads past the buffer in C. The model stops at the end of the buffer.
- Dll.Library.SetPTPPOCmd: requires the length as written to lie between 0 and the buffer size. A count below -4 gives a negative length, and a count above 37 writes past the buffer; both are undefined in C and not modelled.
- Dll.Library.AwaitIndex: the `while (!res)` of `SendPluseEx` (cpp/DobotDll.cpp:4871-4875) has no bound, so against a device that keeps answering below the target index it spins forever. The model's completion script is finite and an exhausted script reports `Timeout`, so the modelled loop always ends.
- Dll.Library.SendPluseEx: the polling loop is a helper method (`AwaitIndex`) entered after a successful pulse. This is equivalent to the source's `while (!res)`.
- UdpSearch.CalculateBroadcastIP: requires a mask of at least four bytes for an IPv4 address. With a shorter mask, Go's `mask[i]` (udpsearch.go:93) panics; `net.IPNet` values from the interface list always carry a full-length mask, so no caller in the source reaches that case, and the panic is not modelled.
- Decoder.DecodeAsWritten: both Go decoders are modelled by one function. The internal copy's `AckLen > 0` guard only skips a read of zero bytes, so it changes nothing.

## Findings

| source | as written | input that shows it | evidently intended | confidence | as-written member | corrected member |
|---|---|---|---|---|---|---|
| protocol.go:8-24 | `iota` is 0 on the base line, so every command id is one more than its `Base + k` comment | `ProtocolDeviceSN` is 1 and `ProtocolGetPose` is 11; the comments say 0 and 10 | the explicit table of internal/protocol.go, with DeviceSN 0 | not executed | Protocol.GoIdOffByOne | InternalProtocol.InternalIdKnownValues |
| protocol.go:86-91 | `ProtocolPTPPOWithLCmd` takes the value 90 | a device using the explicit table reads it as CPParams | 89, distinct from every group base | not executed | Protocol.PtpPoWithLHitsCpBase | InternalProtocol.InternalIdNoBaseCollision |
| connector.go:237-239 | length bytes 0 and 1 pass the checks, and `AckLen = sbyte - 2` wraps to 254 or 255 past the 167-byte buffer | the stream `AA AA 00 00` panics the receive loop; so does `AA AA 01 00 00`, guard at internal/connector.go:265 included | reject a length byte below 2 | not executed | Decoder.ShortFramePanics | Decoder.CorrectedNeverPanics |
| connector.go:282-289 | every reply decrements `leftSpace`, non-queued ones included | a non-queued reply at `leftSpace == 0` wraps the counter to 4294967295, and queued messages then skip the query | decrement only for queued messages, as internal/connector.go:306-308 does | not executed | GoProcess.NonQueuedReplyWraps | InternalProcess.QueuedReplyDecrements |
| dobot.go:132 | the string getters return `string(resp.Params)`, the whole 167-byte buffer; also dobot.go:200 and 3803 | a device answering "SN1" gives "SN1", a NUL and 163 more zero bytes | the string up to its terminator within Data() | not executed | Commands.StringGetterReturnsBuffer | Commands.StringGetterReadsString |
| cpp/DobotDll.cpp:2292-2298 | `paramsLen` counts `parallelCmdCount` outputs even when none were copied | a NULL `parallelCmd` with count 2 sends 26 bytes: a count byte of 0 and 8 stale bytes | count only the outputs announced by the count byte | not executed | Dll.PTPPOAsWrittenSendsStale | Dll.PTPPOCorrectedReadsBack |

The table models each program as written. Package godobot keeps its iota ids, the Go getters return the whole buffer, and `Dll.Library.SetPTPPOCmd` sends the length as written. Each corrected member states the intended behaviour, and the corrected definitions are `InternalProtocol.InternalId`, `Decoder.Decode`, `InternalProcess.SendLoop`, `Commands.GetString` and `Dll.PTPPOParamsLen`.
