# UDP audio device and remote-trx uplink router

This project models two event-driven parts of svxlink and proves properties of the model.

**The UDP audio device** (`AudioDeviceUDP`).
- Opening parses the device name `ip-addr:port` and checks the address and port for the requested mode. Then one UDP socket is created: a send socket for writing, or a socket bound to the port for reading (which also covers read-write).
- Closing releases the socket and resets the address and port.
- The receive handler copies the whole frames of every datagram into a one-block staging buffer (`read_buf` with cursor `read_buf_pos`). It hands the buffer on each time the buffer is full. The cursor carries over from one datagram to the next.
- The send handler pulls one block at a time from upstream and writes each block as one datagram. It stops when nothing is left or right after the first failed write.

**The remote-trx uplink router** (`TrxUplink`).
- `initialize` reads the `TX`, `RX`, `MUTE_RX_ON_TX` and `LOOP_RX_TO_TX` settings of its configuration section.
- It then wires an audio graph: local receiver → fifo → (splitter) → uplink transmitter, and uplink receiver → (selector with the loop-back pass-through) → local transmitter. It gives up at the first transceiver that cannot be created or initialized.
- The DTMF handlers forward digits between the local and the uplink transceivers.
- The destructor deletes what the router owns.

Files:
- `wrappers.dfy`: `Option`.
- `block_chunking.dfy`: a stream cut into fixed-size blocks (`Chunks`, `Rest`). It proves that cutting does not depend on how the stream was split into pieces.
- `audio_device_udp.dfy`: the device as a class over an `array<int16>` staging buffer. Opening and closing are specified by the functions `Open` and `Close` on the endpoint (socket, address, port).
- `c_atoi.dfy`: the C library's `atoi`, used by the router to read its flags.
- `audio_graph.dfy`: the audio graph as an arena of named stages, a set of source→sink edges and the selector's priority map.
- `trx_uplink.dfy`: the router as a class. `initialize` is specified by the function `Initialized`.

Collaborators are parameters with no behaviour of their own:
- The split fields of the device name, the address parser and the port parser (which yields 0 for a non-numeric port).
- Whether a created socket comes up, and the outcome of each socket write.
- The outcome of the send-queue query.
- The configuration section, as a map from key to value.
- Whether each transceiver factory delivers an object, and whether its `initialize()` succeeds.

Calls made on the transceivers (reset, mute, PTT mode, CTCSS, `sendDtmf`) are recorded in order as logs in the router's state.

Re-opening while a socket exists is not a clean restart. `openDevice` stores the parsed address and port first and only then calls `closeDevice`, which clears both. So every mode except MODE_NONE then fails, and the device is left closed (`ReopenWhileOpenFails`). Opening again after an explicit close behaves as on a fresh device (`CloseThenOpenIsFresh`).

## Model

| member | source | states |
|---|---|---|
| AsyncAudioDeviceUdp.Close | src/async/audio/AsyncAudioDeviceUDP.cpp:273-279 | after closing there is no socket, the address is empty and the port is 0 |
| AsyncAudioDeviceUdp.CloseIdempotent | src/async/audio/AsyncAudioDeviceUDP.cpp:273-279 | closing a closed device changes nothing |
| AsyncAudioDeviceUdp.CloseThenOpenIsFresh | src/async/audio/AsyncAudioDeviceUDP.cpp:195-279 | opening after a close behaves exactly as opening a device that was never opened |
| AsyncAudioDeviceUdp.Open | src/async/audio/AsyncAudioDeviceUDP.cpp:195-270 | a name that does not split in two fails with nothing changed; with a socket open, the socket is gone afterwards and only MODE_NONE succeeds; a success in a socket mode leaves a working socket and a non-zero port, and in WR and RDWR a non-empty address; a failure of a well-formed name leaves no socket or only one that did not come up |
| AsyncAudioDeviceUdp.OpenForReading | src/async/audio/AsyncAudioDeviceUDP.cpp:245-262 | succeeds exactly when the port is non-zero and the bind works; address and port are kept; a zero port creates no socket; otherwise the socket is bound to the port and address and feeds the read handler exactly on success |
| AsyncAudioDeviceUdp.OpenRejectsMalformedName | src/async/audio/AsyncAudioDeviceUDP.cpp:197-204 | a name that does not split into exactly two fields fails, and the socket, address and port stay as they were |
| AsyncAudioDeviceUdp.OpenWriteSucceedsIff | src/async/audio/AsyncAudioDeviceUDP.cpp:206-233 | MODE_WR succeeds if and only if no socket was open, the address is non-empty, the port is non-zero and the socket comes up; on success the device holds a working send socket and the parsed address and port |
| AsyncAudioDeviceUdp.OpenReadWriteSucceedsIff | src/async/audio/AsyncAudioDeviceUDP.cpp:206-262 | MODE_RDWR succeeds if and only if no socket was open, the address is non-empty, the port is non-zero and the bind succeeds; on success the socket is bound to the port and address and feeds the read handler |
| AsyncAudioDeviceUdp.OpenReadSucceedsIff | src/async/audio/AsyncAudioDeviceUDP.cpp:245-262 | MODE_RD needs no address: it succeeds if and only if no socket was open, the port is non-zero and the bind succeeds |
| AsyncAudioDeviceUdp.OpenNoneCreatesNoSocket | src/async/audio/AsyncAudioDeviceUDP.cpp:264-268 | MODE_NONE on a well-formed name succeeds and leaves no socket |
| AsyncAudioDeviceUdp.OpenZeroPortFails | src/async/audio/AsyncAudioDeviceUDP.cpp:206-209 | a port that parses to 0 (including a non-numeric one) makes every mode but MODE_NONE fail and leaves no socket |
| AsyncAudioDeviceUdp.ReopenWhileOpenFails | src/async/audio/AsyncAudioDeviceUDP.cpp:206-214 | opening while a socket exists closes it after parsing, so every mode but MODE_NONE fails and the device ends up closed |
| AsyncAudioDeviceUdp.OpenFailureLeavesNoWorkingSocket | src/async/audio/AsyncAudioDeviceUDP.cpp:216-266 | after a failed open of a well-formed name there is no socket, or only one whose construction failed |
| AsyncAudioDeviceUdp.AudioDeviceUdp.OpenDevice | src/async/audio/AsyncAudioDeviceUDP.cpp:195-270 | the outcome and the new socket, address and port are those of `Open` on the old ones; the staging cursor is unchanged and the device invariant is kept |
| AsyncAudioDeviceUdp.AudioDeviceUdp.CloseDevice | src/async/audio/AsyncAudioDeviceUDP.cpp:273-279 | the new endpoint is `Close` of the old one; the staging cursor is unchanged and the device invariant is kept |
| AsyncAudioDeviceUdp.AudioDeviceUdp.constructor | src/async/audio/AsyncAudioDeviceUDP.cpp:181-186 | the device starts closed with port 0 and an empty staging buffer sized one block of `blockSize * channels` samples |
| AsyncAudioDeviceUdp.AudioDeviceUdp.Blocksize | src/async/audio/AsyncAudioDeviceUDP.cpp:130-133 | the block size is positive and is the staging buffer's capacity in frames |
| AsyncAudioDeviceUdp.AudioDeviceUdp.IsFullDuplexCapable | src/async/audio/AsyncAudioDeviceUDP.cpp:136-139 | always true |
| AsyncAudioDeviceUdp.AudioDeviceUdp.SamplesToWrite | src/async/audio/AsyncAudioDeviceUDP.cpp:154-170 | 0 in any mode but WR and RDWR, 0 when the queue query fails, otherwise the queued bytes divided by 2 and rounded down |
| AsyncAudioDeviceUdp.FrameCount | src/async/audio/AsyncAudioDeviceUDP.cpp:292 | the number of whole frames that fit into `count` bytes |
| AsyncAudioDeviceUdp.WholeFrames | src/async/audio/AsyncAudioDeviceUDP.cpp:292-298 | the samples a datagram contributes are a prefix of it, and a trailing partial frame is dropped |
| AsyncAudioDeviceUdp.AudioDeviceUdp.CopyFrame | src/async/audio/AsyncAudioDeviceUDP.cpp:294-298 | the staged samples become the old staged samples followed by the copied frame |
| AsyncAudioDeviceUdp.AudioDeviceUdp.StageFrame | src/async/audio/AsyncAudioDeviceUDP.cpp:292-303 | staging one frame emits the block it completes, if any, and leaves the rest staged, with the cursor kept below the block size |
| AsyncAudioDeviceUdp.AudioDeviceUdp.AudioReadHandler | src/async/audio/AsyncAudioDeviceUDP.cpp:290-305 | the blocks emitted are exactly the previously staged samples followed by the datagram's whole frames, cut into blocks; what is left stays staged; the cursor stays below the block size; the endpoint is unchanged |
| AsyncAudioDeviceUdp.FramesOf | src/async/audio/AsyncAudioDeviceUDP.cpp:292-298 | one sample run per datagram, each the whole frames of that datagram |
| AsyncAudioDeviceUdp.AudioDeviceUdp.ReceiveAll | src/async/audio/AsyncAudioDeviceUDP.cpp:290-305 | feeding a sequence of datagrams through the read handler emits the blocks of the staged samples followed by every whole frame of every datagram, which are also the blocks fed piece by piece; the rest stays staged; the endpoint is unchanged |
| AsyncAudioDeviceUdp.AudioDeviceUdp.FragSize | src/async/audio/AsyncAudioDeviceUDP.cpp:314 | every datagram sent is two bytes per sample of one block |
| AsyncAudioDeviceUdp.AudioDeviceUdp.AudioWriteHandler | src/async/audio/AsyncAudioDeviceUDP.cpp:308-332 | one datagram per block, in upstream order, to the configured address and port, with the block size in bytes; every write before the last succeeded; the handler stops after the first failed write, and otherwise only when upstream has nothing left |
| BlockChunking.Chunks | src/async/audio/AsyncAudioDeviceUDP.cpp:299-303 | every emitted block holds exactly one block of samples |
| BlockChunking.Rest | src/async/audio/AsyncAudioDeviceUDP.cpp:299-303 | what stays staged is shorter than one block |
| BlockChunking.ChunksRestCover | src/async/audio/AsyncAudioDeviceUDP.cpp:290-305 | the emitted blocks followed by the staged rest are the input: nothing is lost, duplicated or reordered |
| BlockChunking.ChunksUnfold | src/async/audio/AsyncAudioDeviceUDP.cpp:299-303 | once one block is full, the blocks are that block followed by the blocks of the remainder, and the rest is the remainder's rest |
| BlockChunking.ChunksSplit | src/async/audio/AsyncAudioDeviceUDP.cpp:290-305 | cutting `s + t` gives the blocks of `s` followed by the blocks of what `s` left staged with `t` appended |
| BlockChunking.FeedStep | src/async/audio/AsyncAudioDeviceUDP.cpp:290-305 | feeding one more piece to what a prefix left staged extends the prefix's blocks to the blocks of the longer stream and stages its rest |
| BlockChunking.FeedAllIsChunksOfConcat | src/async/audio/AsyncAudioDeviceUDP.cpp:290-305 | feeding pieces one after the other emits the blocks of their concatenation and stages its rest |
| BlockChunking.SplitIndependent | src/async/audio/AsyncAudioDeviceUDP.cpp:290-305 | two splittings of the same stream emit the same blocks and leave the same rest |
| BlockChunking.FlattenAppend | src/async/audio/AsyncAudioDeviceUDP.cpp:290-305 | the samples of two runs of blocks are the samples of each run, one after the other |
| BlockChunking.FlattenSnoc | src/async/audio/AsyncAudioDeviceUDP.cpp:290-305 | the samples of one more block are the samples so far followed by that block |
| CAtoi.SkipSpace | src/svxlink/remotetrx/TrxUplink.cpp:158 | atoi skips a run of leading white space: the result is a suffix that starts with no white space, and every character skipped before it is white space |
| CAtoi.LeadingDigits | src/svxlink/remotetrx/TrxUplink.cpp:158 | the longest run of digits at the front: all digits, followed by a non-digit or the end |
| CAtoi.NumberDigits | src/svxlink/remotetrx/TrxUplink.cpp:158 | the digits atoi reads after white space and an optional sign |
| CAtoi.DigitsValueZeroIff | src/svxlink/remotetrx/TrxUplink.cpp:158 | a run of digits has the value 0 exactly when every digit is '0' |
| CAtoi.Atoi | src/svxlink/remotetrx/TrxUplink.cpp:158 | `atoi(s)` is 0 exactly when the digits of the number `s` starts with are all '0'; it is never positive after a minus sign and never negative otherwise |
| AudioGraph.Graph.RemoveStage | src/svxlink/remotetrx/TrxUplink.cpp:208-214 | deleting a stage removes it and its priority, keeps every other stage and every other priority unchanged, and keeps exactly the edges that do not touch it |
| AudioGraph.AddStageUpdates | src/svxlink/remotetrx/TrxUplink.cpp:173-184 | creating a stage (the fifo and splitter here, and likewise each stage created later) adds or replaces exactly that stage; other stages, edges and priorities stay |
| AudioGraph.ConnectAddsEdge | src/svxlink/remotetrx/TrxUplink.cpp:175-182 | `registerSink` and `addSink` add exactly that one edge; stages and priorities stay |
| AudioGraph.SetPriorityUpdates | src/svxlink/remotetrx/TrxUplink.cpp:229-236 | enabling auto-select with a priority sets exactly that source's priority; other priorities, stages and edges stay |
| RemoteTrxUplink.ConfigFlagIff | src/svxlink/remotetrx/TrxUplink.cpp:154-165 | a flag is false when its key is absent; when present it is true if and only if the number the value starts with is not zero |
| RemoteTrxUplink.ConfigFlag | src/svxlink/remotetrx/TrxUplink.cpp:154-165 | an absent key reads as false |
| RemoteTrxUplink.TrxUplink.ReadFlag | src/svxlink/remotetrx/TrxUplink.cpp:154-165 | the flag read is false when the key is absent, and `atoi(value) != 0` otherwise |
| RemoteTrxUplink.MissingKeyFailsUntouched | src/svxlink/remotetrx/TrxUplink.cpp:140-152 | a missing TX or RX key fails with nothing subscribed, created, wired or called |
| RemoteTrxUplink.InitializeSucceedsIff | src/svxlink/remotetrx/TrxUplink.cpp:138-243 | `initialize` succeeds if and only if both keys are present and both uplink transceivers are created and initialized |
| RemoteTrxUplink.Initialized | src/svxlink/remotetrx/TrxUplink.cpp:138-243 | success needs both keys; an uplink transceiver is owned exactly on success; nothing has been sent |
| RemoteTrxUplink.Wire | src/svxlink/remotetrx/TrxUplink.cpp:167-241 | success exactly when both factories deliver an initialized object; the uplink transceivers are owned exactly on success and the selector exactly on success with loop-back; on every outcome the local receiver's events are subscribed and its reset and unmute are the first calls; nothing has been sent |
| RemoteTrxUplink.FailedInitializeLeavesDtmfHandlerWithoutTx | src/svxlink/remotetrx/TrxUplink.cpp:168-215 | when both keys are present but either transceiver fails, the local receiver's DTMF handler stays connected while no uplink transmitter is owned |
| RemoteTrxUplink.FrontGraphShape | src/svxlink/remotetrx/TrxUplink.cpp:171-184 | the contract of the front graph: before the transceivers, the graph is the fifo (8000 samples, 512 prebuffered) after the local receiver and, with loop-back, the splitter after the fifo, with no priorities |
| RemoteTrxUplink.TxGraphShape | src/svxlink/remotetrx/TrxUplink.cpp:186-204 | the contract of the graph with the uplink transmitter: it joins after the splitter with loop-back and after the fifo without, with its name, and no priorities |
| RemoteTrxUplink.FrontHasFifoAfterRx | src/svxlink/remotetrx/TrxUplink.cpp:173-176 | the front of the graph has the fifo as the local receiver's only sink |
| RemoteTrxUplink.FullHasFifoAfterRx | src/svxlink/remotetrx/TrxUplink.cpp:173-176 | the finished graph has the fifo as the local receiver's only sink |
| RemoteTrxUplink.WireKeepsFifoAfterRx | src/svxlink/remotetrx/TrxUplink.cpp:173-215 | whatever the factories deliver, wiring leaves the fifo as the local receiver's only sink |
| RemoteTrxUplink.FifoFollowsRx | src/svxlink/remotetrx/TrxUplink.cpp:173-176 | once both keys are present, on every outcome the fifo (8000, 512) exists and is the local receiver's only sink |
| RemoteTrxUplink.FullGraphShape | src/svxlink/remotetrx/TrxUplink.cpp:171-239 | the contract of the finished graph: its stages, edges and priorities with and without loop-back |
| RemoteTrxUplink.LoopFullEdges | src/svxlink/remotetrx/TrxUplink.cpp:173-239 | with loop-back, exactly seven edges: rx→fifo, fifo→splitter, splitter→uplink tx, splitter→pass-through, uplink rx→selector, pass-through→selector, selector→tx |
| RemoteTrxUplink.LoopFullStages | src/svxlink/remotetrx/TrxUplink.cpp:173-236 | with loop-back, exactly six stages including the fifo (8000, 512), and the priorities uplink rx 10 and pass-through 0 |
| RemoteTrxUplink.DirectFullGraphShape | src/svxlink/remotetrx/TrxUplink.cpp:173-239 | without loop-back, the stages are fifo, uplink tx and uplink rx, the edges rx→fifo, fifo→uplink tx and uplink rx→tx, and no priorities |
| RemoteTrxUplink.LoopDisabledWiring | src/svxlink/remotetrx/TrxUplink.cpp:178-204 | without loop-back: no selector, and the stages are just fifo, uplink tx and uplink rx; the edges are rx→fifo, fifo→uplink tx and uplink rx→tx; there are no priorities |
| RemoteTrxUplink.LoopEnabledWiring | src/svxlink/remotetrx/TrxUplink.cpp:178-236 | with loop-back: fifo→splitter; the splitter feeds uplink tx and a pass-through; the selector takes uplink rx (priority 10) and the pass-through (priority 0); selector→tx |
| RemoteTrxUplink.RemovingUplinkTxRestoresFront | src/svxlink/remotetrx/TrxUplink.cpp:207-214 | deleting the wired uplink transmitter leaves exactly the graph as it was before the transmitter |
| RemoteTrxUplink.TxFailureCleanup | src/svxlink/remotetrx/TrxUplink.cpp:186-193 | when the uplink transmitter fails, the call fails with no transceiver or selector owned; the fifo, the splitter and the local receiver's events stay |
| RemoteTrxUplink.RxFailureCleanup | src/svxlink/remotetrx/TrxUplink.cpp:207-215 | when the uplink receiver fails, both uplink transceivers are released (the transmitter's edge goes with it) and the call fails; the fifo, the splitter and the local receiver's events stay |
| RemoteTrxUplink.SuccessControls | src/svxlink/remotetrx/TrxUplink.cpp:167-239 | on success, the calls are in order: local rx reset and unmuted, uplink tx set to automatic PTT with CTCSS on, uplink rx reset and unmuted, local tx set to automatic PTT; both uplink transceivers are owned; uplink tx state drives uplink rx mute exactly when MUTE_RX_ON_TX is set; nothing was sent |
| RemoteTrxUplink.TrxUplink.WireLocalRx | src/svxlink/remotetrx/TrxUplink.cpp:167-184 | the local receiver's events, its reset and unmute, and the front of the graph |
| RemoteTrxUplink.TrxUplink.WireUplinkTx | src/svxlink/remotetrx/TrxUplink.cpp:194-204 | the uplink transmitter's calls and its edge from the splitter or the fifo |
| RemoteTrxUplink.TrxUplink.WireUplinkRx | src/svxlink/remotetrx/TrxUplink.cpp:216-239 | the uplink receiver's event, calls and optional mute link, the selector stage, and the local transmitter |
| RemoteTrxUplink.TrxUplink.WireLink | src/svxlink/remotetrx/TrxUplink.cpp:167-241 | from an unwired router, the outcome and new state are those of `Wire` for the two flags and names |
| RemoteTrxUplink.TrxUplink.Initialize | src/svxlink/remotetrx/TrxUplink.cpp:138-243 | from a freshly constructed router, the outcome and new state are those of `Initialized` for the configuration and factory outcomes |
| RemoteTrxUplink.TrxUplink.constructor | src/svxlink/remotetrx/TrxUplink.cpp:122-127 | nothing owned, nothing wired, no calls made |
| RemoteTrxUplink.DigitString | src/svxlink/remotetrx/TrxUplink.cpp:282-285 | the C string `{digit, 0}`: the digit alone, or empty for a NUL digit |
| RemoteTrxUplink.TrxUplink.RxDtmfDigitDetected | src/svxlink/remotetrx/TrxUplink.cpp:282-287 | exactly one send call is added: the one-digit string to the uplink transmitter; the duration is ignored |
| RemoteTrxUplink.TrxUplink.UplinkRxDtmfRcvd | src/svxlink/remotetrx/TrxUplink.cpp:262-266 | exactly one send call is added: the one-digit string to the local transmitter; the duration is ignored |
| RemoteTrxUplink.TrxUplink.RxSquelchOpen | src/svxlink/remotetrx/TrxUplink.cpp:269-279 | the router's state is unchanged |
| RemoteTrxUplink.TrxUplink.Destroy | src/svxlink/remotetrx/TrxUplink.cpp:130-135 | the uplink transmitter, the selector and the uplink receiver are deleted with their edges and event links, and the auto-select priorities die with the selector; nothing else changes |

## Left out

- The `ioctl(TIOCOUTQ)` send-queue query is an OS call. Its outcome is the parameter of `SamplesToWrite`.
- Sockets, binding, socket writes, IP address parsing, `splitStr` and `stringstream >>` are foreign code. They are parameters: split fields, parse functions, and outcome flags or functions.
- The byte order of samples on the wire is not modelled. A datagram is its `int16` samples plus its byte count.
- Signal connection and dispatch are not modelled. A connected read handler is a flag on the socket, and router events are a set of subscriptions.
- Device-type registration and all logging are not modelled.
- `audioToWriteAvailable` and `flushSamples` only call the write handler, so they are not modelled separately.
- The library stages (fifo, splitter, selector, pass-through), the transceiver factories and the configuration lookup are outside this model. Only the stages created, their settings, edges and priorities are modelled. Deleting a stage is modelled as detaching it from its sources and sinks, which is what the library's destructors are taken to do.
- Memory management beyond ownership is not modelled: the fifo that is never freed, `delete` versus `delete[]` on the staging buffer, and the created-but-failed transceiver object that is deleted.
- The commented-out signal-strength code in `rxSquelchOpen` is not modelled.
- The value `mode()` comes from the device base class. It is a parameter of `SamplesToWrite` and `AudioWriteHandler`.
- `putBlocks` is modelled as the list of emitted blocks. Its return value, which the source ignores, is not modelled.
- CAtoi.Atoi: integers are unbounded. C leaves overflow undefined, so overflow is not modelled.
- RemoteTrxUplink.TrxUplink.Initialize: it requires a freshly constructed router, because the source calls `initialize` once after construction. A second call is not modelled.
- RemoteTrxUplink.TrxUplink.RxDtmfDigitDetected: it requires an owned uplink transmitter, because the source dereferences it without a check. The state without one is reachable: the handler is connected at TrxUplink.cpp:168, before the uplink transmitter is created at :186, and the failure exits at :190-192 and :210-213 clear `uplink_tx` without disconnecting it. So a local DTMF digit after a failed `initialize` dereferences a null pointer. `FailedInitializeLeavesDtmfHandlerWithoutTx` proves that this state is reachable. The model does not model the crash itself.
- AsyncAudioDeviceUdp.AudioDeviceUdp.SamplesToWrite: it requires a socket in the WR and RDWR modes, which the source asserts.
- AsyncAudioDeviceUdp.AudioDeviceUdp.AudioWriteHandler: it requires a socket and mode WR or RDWR, which the source asserts. It also requires each upstream block to be full: a short block from `getBlocks` is not modelled.
- AsyncAudioDeviceUdp.AudioDeviceUdp.constructor: it requires a positive block size and channel count, which the source takes for granted from the device base class.
- AsyncAudioDeviceUdp.AudioDeviceUdp.AudioReadHandler: it requires the sample buffer to hold all whole frames of `count` bytes, as the socket guarantees. The sender's address is ignored, as in the source.
