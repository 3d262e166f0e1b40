# Verification of SlimStreamer's streaming core

SlimStreamer takes PCM from several capture devices and plays it on many players at the
same time. This project models the chain of small state machines between the devices and
the players in Dafny and proves what the chain as a whole promises.

- **RealTimeQueue.dfy**, **MachineWord.dfy**: the lock-free queue between a real-time capture
  thread and the event loop, as interleaved atomic steps on 64-bit wrapping indices. It is
  proved linearizable against a sequential bounded queue.
- **Capture.dfy**: the producer thread's two passes over a device buffer (find the first
  active frame, copy from there) against one marker filter.
- **Multiplexor.dfy**: the consumer side of a source and the round-robin switch between
  sources; module `Pipeline` puts devices, queues and switch together and proves that
  streams of different sources never interleave.
- **BufferPool.dfy**, **StreamingSession.dfy**: encoded bytes on their way to one player, through a buffer pool
  and asynchronous writes with partial completions, errors, posted tasks and a delayed flush.
- **Ring.dfy**, **Framing.dfy**: the overwriting ring and the incremental parser of player commands.
- **Encoder.dfy**: the in-place conversion of 32-bit samples to 24-bit ones.
- **StateMachine.dfy**, **CommandSession.dfy**, **Streamer.dfy**, **Distribution.dfy**: the
  table-driven machines of a session and of the streamer, the distribution of chunks, and
  what holds over every run of opens, closes, player messages and chunks.
- **Progress.dfy**: what the streamer gets done: buffering and playback begin, newcomers are
  started, draining ends.
- **Delivery.dfy**: the streamer and an HTTP session together, down to the bytes sent, and what
  becomes of an end of stream that was refused.
- **PlaybackTime.dfy**, **Correlation.dfy**, **LatencyEstimator.dfy**: frame and duration
  arithmetic, the way from an HTTP request back to its session, and the latency estimate.

Each component has a value-level model (a state datatype and step functions) and, where the
code updates objects or arrays in place, a class whose methods are proved to have exactly the
effect of the model. Properties are proved about the model, over all inputs or all runs.
Network, timers, device reads and clocks appear as events or as inputs of the steps.

## What the code does that one might not expect

- A queue that is full when a read arrives hides the markers after the first active frame of
  that read. What is captured agrees with the markers exactly when no read with a frame to
  select finds the queue full (`Capture.FilteredThroughoutIff`, `Capture.OverflowBreaksTheFilter`).
- A chunk at another rate than the running stream is reported consumed after draining without
  having been distributed (`Distribution.OtherRateIsLost`).
- An end of stream that a session refuses for lack of room is not offered to that session
  again (`Delivery.RefusedEndIsConsumed`, `Distribution.DrainingDistributesNothing`). It
  reaches every session exactly when none refuses it (`Distribution.EndReachesAllIff`), and
  which sessions refuse can be told before the call (`CommandSession.RefusedExactlyWhenFull`).
  A session that refused it goes on passing chunks on, so the next stream goes to the old HTTP
  session without a Start (`Delivery.NextStreamGoesToOldSession`, `Delivery.StartedAnewIff`).
- An end of stream without a rate is consumed at once where there is no stream, even while
  sessions drain (`Distribution.EndIsHeld`).
- A session without an HTTP session, or one that is not streaming, consumes chunks without
  passing them on (`CommandSession.RefusedExactlyWhenFull`); "accepted" in
  `Distribution.ExactlyOnce` includes these, "passed" in `Distribution.PassedOnInOrder` does not.
- Closing an HTTP connection detaches the player's session by its ID, from whatever HTTP session
  it has by then (`Streamer.SlimStreamer.OnHTTPClose`).
- Negative samples reach the FLAC encoder as positive 24-bit patterns
  (`Encoder.ScaledAgainstSigned`).
- An unsupported label costs one byte per received packet, and a command that declares less
  than its fixed part is handled or refused depending on what else has arrived. How a stream is
  cut into packets matters exactly when it makes one of the two happen
  (`Framing.CuttingIsInvisibleIff`, `Framing.ChunkingMattersIff`).
- In `consumeChunk` of the streamer, two error handlers set a result that the following
  assignment overwrites; the model follows the assignment. Neither handler is reachable
  (`Streamer.ConsumeFindsItsRows`).

## Model

| member | source | states |
|---|---|---|
| RealTimeQueue.AssertedSizes | src/slim/util/RealTimeQueue.hpp:68 | the assertion admits exactly the powers of two, for every 64-bit size |
| RealTimeQueue.StepRefines | src/slim/util/RealTimeQueue.hpp:97-131 | every atomic step of either thread keeps the invariant and is a step of a sequential bounded queue: overflow only when full, underflow only when empty, a rejected item stays unchanged at the front |
| RealTimeQueue.ProducerSeesRoom | src/slim/util/RealTimeQueue.hpp:120 | the masked wrapping test of `enqueue` passes if and only if fewer than size - 1 items are held |
| RealTimeQueue.ConsumerSeesItem | src/slim/util/RealTimeQueue.hpp:102 | the masked wrapping test of `dequeue` passes if and only if an item is held |
| RealTimeQueue.Linearizable | src/slim/util/RealTimeQueue.hpp:97-131 | any interleaving of the atomic steps reports a history that the sequential queue can replay, ending with the same contents |
| RealTimeQueue.FifoOnEveryRun | src/slim/util/RealTimeQueue.hpp:59-131 | from construction on, the dequeued items followed by the contents are the enqueued items, and at most size - 1 items are held, however often the indices wrap at 2^64 |
| RealTimeQueue.NoSlotShared | src/slim/util/RealTimeQueue.hpp:104-122 | in every reachable state the slot being written is not the slot being read |
| RealTimeQueue.GivenIsTaken | src/slim/util/RealTimeQueue.hpp:97-131 | on every run from any state that satisfies the invariant, the items given to accepted `enqueue` calls are the items that entered the queue, in order, and the items shown to accepted `dequeue` calls are the first of them |
| RealTimeQueue.TakenAreTheFirstGiven | src/slim/util/RealTimeQueue.hpp:59-131 | from construction on, what consumers took is the beginning of what producers gave, however the threads interleave |
| RealTimeQueue.EnqueueCompletes | src/slim/util/RealTimeQueue.hpp:115-131 | an `enqueue` that finds room and is accepted publishes its own item with its fourth step, whatever the consumer does in between |
| RealTimeQueue.DequeueCompletes | src/slim/util/RealTimeQueue.hpp:97-113 | a `dequeue` that finds an item and is accepted releases the oldest one with its fourth step, whatever the producer does in between |
| RealTimeQueue.FullAndEmptyAreReported | src/slim/util/RealTimeQueue.hpp:97-131 | a look at a full or an empty queue ends the operation with the overflow or underflow handler, and changes nothing |
| RealTimeQueue.SharedQueue.Produce | src/slim/util/RealTimeQueue.hpp:115-131 | one atomic step of `enqueue` on the shared memory has exactly the effect of the model step |
| RealTimeQueue.SharedQueue.Consume | src/slim/util/RealTimeQueue.hpp:97-113 | one atomic step of `dequeue` on the shared memory has exactly the effect of the model step |
| Capture.FilterConcat | src/slim/alsa/Source.cpp:38-54 | filtering by markers is compositional: the flag and the selected frames over two reads are those of one read after the other |
| Capture.ReadIsFilteredIff | src/slim/alsa/Source.cpp:203-242 | a read keeps flag, payload bytes and frame count those of one marker filter over all frames if and only if it selects nothing or finds room in the queue |
| Capture.FilteredThroughoutIff | src/slim/alsa/Source.cpp:203-242 | over any sequence of reads they stay those of one pass of the filter all along if and only if no read with a frame to select found the queue full |
| Capture.CaptureIsOneFilter | src/slim/alsa/Source.cpp:203-242 | on histories without such a loss, whatever the other reads found, what is enqueued is what one pass over all frames selects |
| Capture.OverflowBreaksTheFilter | src/slim/alsa/Source.cpp:213-241 | a concrete run, for every data frame, in which a full queue hides an end marker: the filter property fails after that read and after the next, whose frame outside the stream is captured |
| Capture.CapturedChunkGrammar | src/slim/alsa/Source.cpp:188-275 | whatever is read and wherever the queue overflows, chunks form (data+ end)* data*, data chunks carry frames and end chunks none, and `capturedFrames` is the running sum |
| Capture.EnqueuedExactlyIf | src/slim/alsa/Source.cpp:203-269 | on every history, what the last read enqueued: a data chunk if and only if it selected a frame and found room, an end chunk if and only if it was not empty, selected nothing, found room and a stream was open; with the read's payload and timestamp and the device's format |
| Capture.SilenceClosesTheStream | src/slim/alsa/Source.cpp:243-262 | after a read that is not empty, selects nothing and finds room, no stream is open |
| Capture.StreamIsEnqueued | src/slim/alsa/Source.cpp:203-262 | a begin marker and a frame in one read and an end marker in the next give a data chunk with that payload and then an end chunk |
| Capture.SelectedFits | src/slim/alsa/Source.hpp:59-63 | the payload of whatever the filter selects from a read of at most `framesPerChunk` frames fits the buffer allocated for a chunk |
| Capture.Source.ContainsData | src/slim/alsa/Source.cpp:33-57 | the scan stops at the first active frame with the flag of the filter at that point, or reports none after filtering all frames |
| Capture.Source.CopyData | src/slim/alsa/Source.cpp:60-94 | the copy writes exactly the payload of the selected frames to the beginning of the buffer, in bounds, and leaves the flag of the filter |
| Capture.Source.Produce | src/slim/alsa/Source.cpp:203-269 | scan and copy together have the effect of the one-pass model of a read, for the state and for the chunk enqueued |
| Multiplexor.PollHandsOver | src/slim/Multiplexor.hpp:60-94 | a poll hands over the chunk on offer if it is accepted, and nothing otherwise |
| Multiplexor.TurnPassesIff | src/slim/Multiplexor.hpp:60-94 | a poll leaves the turn with the current source if and only if its chunk was refused or did not end its stream, or it waits for more of a stream under way; otherwise the turn passes to the next |
| Multiplexor.PollTouchesItsSource | src/slim/alsa/Source.hpp:199-243 | only the current source is touched, only an accepted chunk leaves its queue, and it is consuming exactly while it keeps its turn |
| Multiplexor.PauseMeans | src/slim/Multiplexor.hpp:60-94 | which pause a poll asks for, and how it counts turns without a chunk |
| Pipeline.IdlePollsAreBounded | src/slim/Multiplexor.hpp:76-87 | with no stream under way each idle poll brings the current producer one place nearer to a source with a chunk, whatever is captured meanwhile, so the chunk waits for at most as many idle polls as its source is places away before some chunk is offered |
| Multiplexor.Source.Producer | src/slim/alsa/Source.hpp:199-243 | the consume, reject, underflow and end-of-stream logic on the queue and the `consuming` flag, with the pause asked for |
| Multiplexor.Switch.SwitchToNextProducer | src/slim/Multiplexor.hpp:140-155 | the index moves round-robin and the current producer follows it |
| Multiplexor.Switch.ProduceChunk | src/slim/Multiplexor.hpp:60-94 | the whole of `produceChunk` on the producers, the index and the count of empty switches |
| Pipeline.RejectedIsOfferedAgain | src/slim/alsa/Source.hpp:211-230 | a rejected chunk is the one offered again, whatever is captured and rejected meanwhile |
| Pipeline.QueuesAreBounded | src/slim/alsa/Source.cpp:203-262 | no queue ever holds more chunks than its capacity |
| Pipeline.CaptureFindsRoomIff | src/slim/alsa/Source.cpp:203-262 | a read finds room exactly while its source holds fewer chunks than the queue can, and enqueues at the end of that queue alone |
| Pipeline.StreamsNeverInterleave | src/slim/Multiplexor.hpp:60-94 | over all captures, polls, rejections and skips the chunks handed over are whole single-source streams one after another, the last perhaps unfinished, and no chunk of a source is lost, repeated or reordered |
| Pipeline.DeliveredIsFiltered | src/slim/alsa/Source.hpp:199-243 | for a source that never lost selected frames to a full queue, payload handed over and payload still queued are together what the filter selects from all the device delivered |
| BufferPool.Pool.Allocate | src/slim/util/buffer/BufferPool.hpp:71-95 | hands out the first free buffer and marks only that one as used; none if and only if none is free |
| BufferPool.Pool.Free | src/slim/util/buffer/BufferPool.hpp:80-83 | returning a buffer frees that buffer and changes nothing else |
| BufferPool.Pool.GetAvailableSize | src/slim/util/buffer/BufferPool.hpp:97-112 | counts the free buffers |
| StreamingSession.BytesAreConserved | src/slim/proto/StreamingSession.hpp:230-313 | on error-free runs the bytes sent followed by the unsent parts of the queued buffers stay the bytes accepted, and after the flush what was sent is a prefix |
| StreamingSession.BytesAreConservedFromTheStart | src/slim/proto/StreamingSession.hpp:52-75 | the same from the start of a session, for any blocks emitted, any partial writes and any order of tasks and timers |
| StreamingSession.ErrorLosesTheRest | src/slim/proto/StreamingSession.hpp:276-300 | a failed write loses exactly the bytes of its buffer that were not written, and no others |
| StreamingSession.EveryRunIsSafe | src/slim/proto/StreamingSession.hpp:251-313 | on every run, errors included: free and queued buffers add up to the pool, a non-empty queue has a write in flight or a posted task, and the next buffer handed out is neither queued nor in flight |
| StreamingSession.EveryScheduleDrains | src/slim/proto/StreamingSession.hpp:251-313 | from any reachable state, however posted tasks and error-free writes are ordered and split, no schedule of them is longer than the work there is, and one that cannot go on has sent every queued byte |
| StreamingSession.Drains | src/slim/proto/StreamingSession.hpp:251-313 | there is such a schedule from any reachable state: no wake-up is lost |
| StreamingSession.BlockIsWholeIff | src/slim/proto/StreamingSession.hpp:54-74 | an encoded block is accepted whole if and only if the buffers it needs are free |
| StreamingSession.BlocksAreWholeIff | src/slim/proto/StreamingSession.hpp:54-74 | so are all blocks of a chunk together |
| StreamingSession.AcceptedIsPrefix | src/slim/proto/StreamingSession.hpp:57-61 | of a block that does not fit a prefix is accepted |
| StreamingSession.AcceptedChunkIsWhole | src/slim/proto/StreamingSession.hpp:95-126 | a chunk that passes the ten-buffer check and needs at most ten buffers is never truncated |
| StreamingSession.StopDropsTheUnsent | src/slim/proto/StreamingSession.hpp:193-217 | stopping with no write in flight drops exactly the unsent bytes and returns all buffers |
| StreamingSession.StoppedIsSilent | src/slim/proto/StreamingSession.hpp:230-249 | a session that stopped never sends or accepts another byte |
| StreamingSession.StopEndsOrWaits | src/slim/proto/StreamingSession.hpp:193-249 | stopping ends the encoder at once, and the session too unless a write is in flight; then a timer is posted |
| StreamingSession.EndStops | src/slim/proto/StreamingSession.hpp:95-126 | an accepted end of stream, and an accepted chunk at another rate, stop the session |
| StreamingSession.EveryStopEnds | src/slim/proto/StreamingSession.hpp:230-313 | a stop completes: in any order of completions, failed or not, tasks and timers, a stopped session advances only boundedly often, and where it cannot go on it is ended with an empty queue and all buffers back in the pool |
| StreamingSession.StopAfterWrite | src/slim/proto/StreamingSession.hpp:242-248 | the write in flight completes, however much of it was written, and the flush timer ends the session |
| StreamingSession.Session.EncodedCallback | src/slim/proto/StreamingSession.hpp:52-75 | the cutting loop over pooled buffers has the effect of the model |
| StreamingSession.Session.TransferTask | src/slim/proto/StreamingSession.hpp:251-271 | a task starts a write of the unwritten part of the first buffer unless one is in flight or nothing is queued |
| StreamingSession.Session.WriteCompleted | src/slim/proto/StreamingSession.hpp:271-313 | completion pops and frees the buffer, or advances its offset after a partial write, and posts a task |
| StreamingSession.Session.Flush | src/slim/proto/StreamingSession.hpp:230-249 | flushing frees every queued buffer and ends the session, or waits for the write in flight |
| StreamingSession.Session.Stop | src/slim/proto/StreamingSession.hpp:193-223 | stopping lets the encoder finish before the flush |
| StreamingSession.Session.ConsumeChunk | src/slim/proto/StreamingSession.hpp:95-126 | the verdict and the effect of offering a chunk, backpressure, wrong rate and end of stream included |
| StreamingSession.Session.Start | src/slim/proto/StreamingSession.hpp:173-192 | starting emits the first blocks of the encoder into a fresh session |
| RingBuffer.Ring.Push | src/slim/util/buffer/Ring.hpp:87-103 | appends, dropping the oldest element when full; a ring of capacity zero stays empty |
| RingBuffer.Ring.Pop | src/slim/util/buffer/Ring.hpp:76-85 | drops the oldest element, or nothing if empty |
| RingBuffer.Ring.Get | src/slim/util/buffer/Ring.hpp:41-44 | the element at a logical position, read inside the storage |
| RingBuffer.Ring.PushAll | src/slim/proto/CommandSession.hpp:281-285 | pushing bytes one by one keeps the last ones that fit, as if they had come at once |
| RingBuffer.LastOfLast | src/slim/util/buffer/Ring.hpp:87-103 | forgetting the oldest elements early or late makes no difference |
| Framing.FramingIsIndependentOfReads | src/slim/proto/CommandSession.hpp:273-344 | a stream of supported commands, cut into any reads that do not overfill the ring, is handled as exactly its complete commands in order, and the ring holds a strict prefix of the next |
| Framing.SameBytesSameCommands | src/slim/proto/CommandSession.hpp:273-344 | two ways of cutting the same bytes lead to the same commands and the same ring |
| Framing.ShortReadsFit | src/slim/proto/CommandSession.hpp:281-285 | reads never overfill the ring if one read and all but one byte of the longest command fit together |
| Framing.SupportedLabels | src/slim/proto/CommandSession.hpp:103-110 | exactly DSCO, HELO, RESP, SETD and STAT are supported, with the sizes of their fixed parts |
| Framing.SupportedCommandIsHandled | src/slim/proto/CommandSession.hpp:292-343 | a command with one of these labels, as long as it declares and no shorter than its fixed part, is handled whole |
| Framing.ProcessConsumes | src/slim/proto/CommandSession.hpp:292-343 | on arbitrary bytes a call removes complete supported commands and then at most one byte, fails exactly at a complete command shorter than its fixed part, and stops only where it must |
| Framing.CuttingIsInvisibleIff | src/slim/proto/CommandSession.hpp:273-344 | for arbitrary bytes that fit the ring: every cutting into reads ends as one read of them all if and only if, command by command, none declares less than its fixed part, and where a byte would be skipped the next call would wait |
| Framing.CutSafeSeen | src/slim/proto/CommandSession.hpp:273-344 | that condition on the bytes is the same as one on the outcome of a call: all commands handled well-formed, and after a skip the rest waits |
| Framing.SafeReadsAgree | src/slim/proto/CommandSession.hpp:273-344 | for such bytes all reads that do not overfill the ring agree, however many bytes there are |
| Framing.ChunkingMattersIff | src/slim/proto/CommandSession.hpp:313-319 | where the bytes begin with no supported label, the cutting matters if and only if there are five or more and a call on all but the first would not wait |
| Framing.ChunkingMattersOtherwise | src/slim/proto/CommandSession.hpp:313-319 | five bytes of no supported label show it |
| Framing.HostOrderTwice | src/slim/proto/InboundCommand.hpp:60-63 | the in-place size conversion keeps the declared size and can be undone |
| Framing.InboundCommand.IsEnoughData | src/slim/proto/InboundCommand.hpp:106-125 | whether the ring holds as many bytes as the header declares |
| Framing.InboundCommand.Deserialize | src/slim/proto/InboundCommand.hpp:41-85 | which of the exceptions is raised and when, that the too-big check can never fire, and the bytes of the buffer otherwise; all indices in bounds |
| Framing.Receiver.HandleOne | src/slim/proto/CommandSession.hpp:294-343 | one round of the loop: wait, skip one byte, fail, or handle and remove a command |
| Framing.Receiver.Receive | src/slim/proto/CommandSession.hpp:273-344 | a whole call terminates and does to the ring what the model says, the clearing after an exception included |
| Encoder.ShiftIsUniformIff | src/slim/flac/Encoder.hpp:57-76 | reading one byte later equals the uniform map if and only if the low byte of every sample but the first is zero |
| Encoder.LoweringIsInvisible | src/slim/flac/Encoder.hpp:48-55 | zeroing the low bytes does not change the uniform map, makes the shifted view equal to it, and a second time changes nothing, so a chunk can be encoded again for further sessions |
| Encoder.ScaledAgainstSigned | src/slim/flac/Encoder.hpp:57-76 | the presented value has the right 24 bits always and is the signed value divided by 256 if and only if that is not negative |
| Encoder.Encoder.Encode | src/slim/flac/Encoder.hpp:40-81 | the samples presented over both calls, with and without down-scaling, in bounds; the bytes left in the chunk; nothing beyond `size` is touched |
| Encoder.Encoder.LastFrame | src/slim/flac/Encoder.hpp:67-74 | the separately built last frame is the last frame one byte later, ending in zero |
| Encoder.Encoder.Start | src/slim/flac/Encoder.hpp:126-149 | down-scaling is switched on for values of more than 24 bits |
| StateMachine.Search | src/slim/util/StateMachine.hpp:44-49 | the loop finds the first row for an event and a state |
| CommandSession.TableMeansTransition | src/slim/proto/CommandSession.hpp:125-159 | the session table, searched row by row, means the transition function, for all events and states |
| Streamer.TableMeansTransition | src/slim/proto/Streamer.hpp:85-113 | the streamer table, searched row by row, means the transition function, for all events and states |
| CommandSession.SlimProtoSession.Process | src/slim/util/StateMachine.hpp:40-72 | guard first, then the action, then the new state; a failed guard is silent |
| CommandSession.CommandsAreDisciplined | src/slim/proto/CommandSession.hpp:124-160 | on every run commands match (Start Unpause?)*, every Start has a rate, and between a Start and its Unpause the player reported a loaded buffer and an HTTP session was attached and stayed |
| CommandSession.UnbrokenIsDisciplined | src/slim/proto/CommandSession.hpp:743-767 | what the phase kept by the invariant means for positions in the history |
| CommandSession.ConsumeNeverCloses | src/slim/proto/CommandSession.hpp:181-236 | the connection-closing error handlers inside `consumeChunk` are never called, in any state |
| CommandSession.RefusedExactlyWhenFull | src/slim/proto/CommandSession.hpp:181-236 | a chunk is refused if and only if, before the call, the session has an HTTP session attached and streams or is prepared, and that HTTP session has no room; the HTTP session is asked in exactly those states, and an accepted end of stream ends streaming |
| CommandSession.PassingOnChanges | src/slim/proto/CommandSession.hpp:181-236 | a session begins to pass chunks on only when an HTTP session is attached or it is prepared, and stops only when that is detached, it takes an end of stream, is halted, or is prepared for no rate |
| CommandSession.ConsumeSends | src/slim/proto/CommandSession.hpp:743-761 | offering a chunk sends at most one command, and an Unpause only during playback: the streamer's start time less the session's own offset |
| CommandSession.FlushedEndsDraining | src/slim/proto/CommandSession.hpp:563-570 | a flushed player ends draining, and changes no other state |
| CommandSession.DrainingChanges | src/slim/proto/CommandSession.hpp:124-160 | draining begins only with the first HELO of a started session or a taken end of stream, and ends exactly with a flush or a halt |
| CommandSession.OfferDrains | src/slim/proto/CommandSession.hpp:181-236 | after an offer a session drains if and only if it did before, or it streams and took an end of stream |
| CommandSession.HaltStops | src/slim/proto/CommandSession.hpp:377-394 | a halted session is stopped without a rate, and its player is told to stop unless the session was idle |
| CommandSession.NewcomerIsStarted | src/slim/proto/CommandSession.hpp:181-200 | a started session that is offered a chunk is told to start the stream at once and takes the chunk without passing it on |
| CommandSession.ConnectingPlayerIsStopped | src/slim/proto/CommandSession.hpp:461-507 | a player that connects is set up and stopped, and its session waits once it flushed |
| CommandSession.WaitingSessionGetsReady | src/slim/proto/CommandSession.hpp:253-266 | a waiting session is ready to play after a prepare, an attach, a loaded buffer and a clock comparison, and its player got one Start |
| CommandSession.BuffersOnOffer | src/slim/proto/CommandSession.hpp:197-235 | an attached prepared session begins to buffer with the next chunk |
| CommandSession.PlaysOnOffer | src/slim/proto/CommandSession.hpp:201-211 | a ready session joins playback with the next chunk, and its Unpause names its own clock |
| CommandSession.DrainsOnEnd | src/slim/proto/CommandSession.hpp:213-235 | a playing session drains with the end of stream |
| CommandSession.DrainedPlayerIsStopped | src/slim/proto/CommandSession.hpp:706-713 | a player that runs out of data while draining is stopped, and its session waits once it flushed |
| CommandSession.SlimProtoSession.Consume | src/slim/proto/CommandSession.hpp:181-236 | the imperative `consumeChunk` has the effect and the verdict of the model |
| CommandSession.SlimProtoSession.SetRate | src/slim/proto/CommandSession.hpp:346-360 | the sampling rate is restored when the transition does not happen |
| CommandSession.SlimProtoSession.Halt | src/slim/proto/CommandSession.hpp:377-394 | a session that is not idle sends Stop, and stopping resets the rate |
| CommandSession.SlimProtoSession.Greet | src/slim/proto/CommandSession.hpp:461-507 | the first HELO sends the set-up commands and Stop and moves a started session to draining; later ones do nothing |
| Distribution.ExactlyOnce | src/slim/proto/Streamer.hpp:677-705 | on every run each counter is the streamer's or one more, and the chunks a session accepted are exactly the contiguous slice from where it joined to its counter |
| Distribution.PassedOnInOrder | src/slim/proto/CommandSession.hpp:213-235 | on every run the chunks passed on to an HTTP session since it was attached are a contiguous slice of the stream from where it was attached, and reach the session's counter until the next detach or drain |
| Delivery.WireCarriesTheStream | src/slim/proto/StreamingSession.hpp:95-126 | streamer and HTTP session together: from an attach in any state of any run, until it is detached, attached again or a new stream begins, the bytes an HTTP session accepted are exactly those emitted for the chunks passed on to it, a contiguous part of the stream, and without write errors it sends them in order |
| Delivery.AnswerIsVerdict | src/slim/proto/StreamingSession.hpp:95-126 | an HTTP session has room if and only if it is not running or ten buffers are free |
| Distribution.NoSilentLoss | src/slim/proto/Streamer.hpp:165-254 | a non-final chunk of a matching rate is reported consumed if and only if it joined the stream, and then every counter is past it |
| Distribution.RunKeepsInv | src/slim/proto/Streamer.hpp:85-113 | the invariant that the lemmas about single calls start from holds after every run of opens, closes, player messages, rejections and redeliveries |
| Distribution.RoomMeansConsumed | src/slim/proto/Streamer.hpp:165-254 | progress: a matching non-final chunk is consumed when every HTTP session has room and preparing has lasted more than two seconds |
| Distribution.EndIsHeld | src/slim/proto/Streamer.hpp:165-254 | from every state: an end of stream, or a chunk at another rate than that of the stream, is consumed exactly when its stream was distributed or drains and no session is draining any more, and then the streamer is started; the one exception, an end of stream without a rate where there is no stream, is consumed at once and changes no session |
| Distribution.DrainingHoldsBack | src/slim/proto/Streamer.hpp:238-251 | while draining nothing is distributed and the chunk on offer waits for the last draining session |
| Distribution.EndIsDistributedOnce | src/slim/proto/Streamer.hpp:217-235 | an end of stream is distributed at most once in a stream |
| Distribution.OtherRateIsLost | src/slim/proto/Streamer.hpp:224-235 | a chunk at another rate is never distributed, not even when it is reported consumed |
| Distribution.EndReachesAllIff | src/slim/proto/Streamer.hpp:165-254 | from every state: where an end of stream is distributed, in the same call that began the stream or later, it reaches exactly the sessions that do not refuse it and counts if and only if none refuses; elsewhere it reaches no session |
| Distribution.DrainingDistributesNothing | src/slim/proto/Streamer.hpp:238-251 | on any run that begins while draining, up to the consumption of the end of stream, nothing is distributed, so a session that refused it never gets it |
| Delivery.RefusedEndIsConsumed | src/slim/proto/Streamer.hpp:217-251 | it happens: on a run of five inputs from the beginning, for all chunks of one rate, the end of stream is consumed although the only session, with an HTTP session attached, refused it |
| Delivery.NextStreamGoesToOldSession | src/slim/proto/CommandSession.hpp:346-360 | on that run the next stream, at whatever rate, is passed on to the same HTTP session, and no Start is sent |
| Delivery.StartedAnewIff | src/slim/proto/Streamer.hpp:643-663 | when a stream begins, a Start is sent by exactly the started sessions, and a session passes chunks on at once exactly when it is still attached and was not drained |
| Distribution.PlayersAgree | src/slim/proto/Streamer.hpp:590-641 | on every run and in every state, all start times sent since buffering began are the same one, at least 2001 ms after buffering began, and while playing more than two seconds were streamed |
| Distribution.UnpausesNameTheStart | src/slim/proto/CommandSession.hpp:743-761 | on every run and for any next step, each Unpause that the step adds to the history of a live session names the streamer's one start time less that session's own offset, at least 2001 ms after buffering began |
| Distribution.StartTimeIsFixed | src/slim/proto/Streamer.hpp:262-265 | the agreed start time does not move while the streamer plays, up to and including the call that ends playing |
| Progress.PlaybackBeginsIff | src/slim/proto/Streamer.hpp:206-216 | a chunk begins playback if and only if more than 2000 ms were streamed before it and every session has a rate, an HTTP session, a time offset and a loaded buffer; then the start time is the streamed duration and the delay after buffering began, and every buffering session that is asked gets its Unpause in that call |
| Progress.BufferingBeginsIff | src/slim/proto/Streamer.hpp:560-588 | a preparing streamer holds every chunk back until two seconds passed or all sessions have a rate and an HTTP session, and then begins to buffer now |
| Progress.StreamBegins | src/slim/proto/Streamer.hpp:643-663 | a chunk with a rate begins a stream: all counters start again and preparing starts now |
| Progress.NewcomersAreStarted | src/slim/proto/Streamer.hpp:677-705 | every started session asked in a distribution gets its Start in it and takes the chunk without passing it on |
| Progress.FlushedPlayersRelease | src/slim/proto/Streamer.hpp:238-251 | draining ends: on any run through which the streamer drains, once every draining session was flushed or closed and nobody was greeted anew, the next delivery is consumed and the streamer is started |
| Progress.LeavingIsFinal | src/slim/proto/Streamer.hpp:375-389 | a closed connection has no session any more, and a halted streamer has stopped every session |
| Distribution.ReadySessionsAreTold | src/slim/proto/CommandSession.hpp:201-211 | every session that is ready when a chunk is offered during playback is told the start time then, late joiners included |
| Distribution.PlaybackStartIsBounded | src/slim/proto/Streamer.hpp:632-641 | the start is never later than streamed duration plus delay and less than 2 ms earlier, and the delay covers every session's latency when all sessions are visited |
| Distribution.DelayIgnoresOrder | src/slim/proto/Streamer.hpp:488-505 | the delay does not depend on the order in which the sessions are visited |
| Distribution.RequestFindsItsSession | src/slim/proto/Streamer.hpp:338-360 | on every run, the ID parsed out of the request that a session's Start put on the wire is that session's and no other live session's |
| Streamer.SlimStreamer.Consume | src/slim/proto/Streamer.hpp:165-254 | the imperative `consumeChunk` has the effect and the verdict of the model |
| Streamer.ConsumeFindsItsRows | src/slim/proto/Streamer.hpp:165-254 | the table has a row for every event that `consumeChunk` processes, in every state, so the handlers for missing transitions are never called |
| Streamer.SlimStreamer.Distribute | src/slim/proto/Streamer.hpp:677-705 | the distribution loop and its counters |
| Streamer.OfferEach | src/slim/proto/Streamer.hpp:681-695 | the loop over the counters asks exactly the sessions that are not past the chunk, in any order |
| Streamer.SlimStreamer.Evaluate | src/slim/proto/Streamer.hpp:560-607 | the guards, counted over all sessions in any order |
| Streamer.SlimStreamer.CalculateDelay | src/slim/proto/Streamer.hpp:488-505 | the loop sums the base delay and the latency of every session |
| Streamer.SlimStreamer.ChangeToPreparing | src/slim/proto/Streamer.hpp:643-663 | all counters are reset and every session is prepared |
| Streamer.SlimStreamer.ChangeToPlaying | src/slim/proto/Streamer.hpp:632-641 | the buffered frames and the playback start are computed from the delay |
| Streamer.SlimStreamer.FindSessionByID | src/slim/proto/Streamer.hpp:524-546 | finds a session with the ID, or none if there is none |
| Streamer.SlimStreamer.OnHTTPData | src/slim/proto/Streamer.hpp:329-368 | the first request on an HTTP connection attaches it to the session it names and remembers the ID, or fails and changes nothing; later data change nothing |
| Streamer.SlimStreamer.OnHTTPClose | src/slim/proto/Streamer.hpp:308-327 | the session with the ID of a closed HTTP connection, if there is one, is detached; the connection is not forgotten yet |
| Streamer.SlimStreamer.OnHTTPStopped | src/slim/proto/Streamer.hpp:609-622 | the connection is forgotten when its HTTP session finished |
| Streamer.SlimStreamer.Open | src/slim/proto/Streamer.hpp:409-424 | a new session gets the next ID and joins at the current chunk |
| PlaybackTime.StartBound | src/slim/proto/Streamer.hpp:632-641 | at any rate the start is at most the streamed duration and the delay, and less than a millisecond and a frame earlier |
| PlaybackTime.StartIsExact | src/slim/proto/Streamer.hpp:507-522 | the start is the streamed duration and the delay less exactly the remainders of the two divisions |
| PlaybackTime.StartIsEarlyIff | src/slim/proto/Streamer.hpp:507-522 | it is two milliseconds early or more if and only if those remainders add up to that much, which is never from 1000 Hz on |
| PlaybackTime.RoundTripExactIff | src/slim/proto/Streamer.hpp:512-558 | frames to microseconds and back is exact if and only if the frames last a whole number of microseconds |
| PlaybackTime.RoundTripLosesAtMostOne | src/slim/proto/Streamer.hpp:512-558 | up to a million frames a second the round trip loses at most one frame |
| PlaybackTime.DelayIsOrderFree | src/slim/proto/Streamer.hpp:488-505 | the sum of latencies is the same for every permutation |
| PlaybackTime.DelayIs | src/slim/proto/Streamer.hpp:488-505 | the delay is 1000 microseconds and each latency once, however the sessions are taken together |
| PlaybackTime.DelayCoversLatencies | src/slim/proto/Streamer.hpp:488-505 | when no latency is negative the delay is at least each of them |
| Correlation.DecimalIsInjective | src/slim/proto/Streamer.hpp:413-415 | different numbers give different IDs |
| Correlation.ParsingMeans | src/slim/proto/StreamingSession.hpp:159-171 | the parsed ID is what follows the first equals sign; there is none if and only if there is no such sign |
| Correlation.ClientIDComesBack | src/slim/proto/server/CommandSTRM.hpp:99-103 | an ID put into the 64-byte header field, transmitted up to its first zero and parsed comes back unchanged |
| Correlation.NumbersComeBack | src/slim/proto/Streamer.hpp:409-424 | every ID the 64-bit counter hands out fits the field and comes back |
| LatencyEstimator.Estimator.GetLatencyMeanProbe | src/slim/proto/CommandSession.hpp:417-447 | the probe picked is the upper median of the non-zero samples when there are at least three, whatever order sorting gives to equal ones |
| LatencyEstimator.MedianIsUnique | src/slim/proto/CommandSession.hpp:430-444 | the median latency is unique |
| LatencyEstimator.SamplesAre | src/slim/proto/CommandSession.hpp:417-433 | the samples are exactly the probes from the fourth on that measured a latency |
| LatencyEstimator.AverageWeighs | src/slim/proto/CommandSession.hpp:631-634 | the average weighs the old value eight to two, less than one microsecond off |
| LatencyEstimator.EstimateStaysInRange | src/slim/proto/CommandSession.hpp:631-634 | the 8:2 average never leaves the range of the values fed in |
| LatencyEstimator.EstimateConverges | src/slim/proto/CommandSession.hpp:631-634 | a constant non-negative input moves the estimate one way only; from above it arrives exactly, from below at most 4 microseconds short |
| LatencyEstimator.Estimator.Adjust | src/slim/proto/CommandSession.hpp:629-634 | both estimates move towards the picked probe by the same average |

## Left out

- TCP and UDP servers and connections: replaced by open, close, data and write-completion events.
- ALSA device set-up, error recovery and thread start and stop: a device read is any list of frames.
- libFLAC: only the samples handed to it matter; the blocks it emits are inputs of the transport model.
- The wave encoder, file consumers, the encoder builder, the container, the scheduler, the demultiplexor, logging and command-line parsing: thin, or independent of the properties above.
- Clocks: timestamps and clock readings are inputs, in nanoseconds; latencies fed to the estimator of a session are not negative, that is, a message is not received before it was sent.
- Overflow of 64-bit frame, duration and time arithmetic, and the truncation of the Unpause time to 32-bit milliseconds on the wire.
- A `size_t` narrower than 64 bits: the parser adds the declared size of a command to the size of its header in `size_t`, which would wrap on a 32-bit build.
- C++ memory orders weaker than acquire and release on the two queue indices.
- The growth of the probe vector, the scheduling of pings, and the logging of playback drift: the estimator has thirteen probes.
- The byte-order conversion of command fields other than the size, and the contents of outbound commands other than the Start header text.
- The handlers' effects are not run from the parser: `Framing` says which commands are handled, `CommandSession` what they do.
- Sessions inside `Streamer.SlimStreamer` are values in one map that holds session and counter together; aliasing between the source's two maps is not captured. `CommandSession.SlimProtoSession` is the same session as an object.
- Streamer.SlimStreamer.Open: requires a connection that has no session yet, which the connection guarantees by opening once; the source's warning path for a second open is not modelled.
- Encoder.Encoder.Encode: requires a whole number of frames, which is all the source ever passes.
- StreamingSession.Session.ConsumeChunk: an encoder that was stopped ignores further samples, as the FLAC encoder does; the wave encoder is not modelled.
- Framing.FramingIsIndependentOfReads: is about supported commands at least as long as their fixed part; for arbitrary bytes that fit the ring see `Framing.CuttingIsInvisibleIff`.
- Framing.InboundCommand.Deserialize: converts the size field only; the byte order of the other HELO and STAT fields is not modelled.
- StreamingSession.Session.Start: does not model the HTTP response header, which is written to the connection directly and not through the buffer pool.
- Streamer.SlimStreamer.OnHTTPClose: does not stop the HTTP session itself; `StreamingSession.Session.Stop` does, and its completion is `OnHTTPStopped`.
- Delivery.WireCarriesTheStream: takes the encoder as a function of the chunks it was given since it started, none of whose answers needs more than the ten buffers a chunk is accepted with; beyond ten a block is truncated as `StreamingSession.AcceptedIsPrefix` says.
- Streamer.SlimStreamer.OnHTTPData: does not model the HTTP session object it creates, its encoder's rate, or the method check of later data.
- The destruction of a streaming session's connection after the flush.
- `skipChunk` is modelled for the multiplexor; nothing in the source calls it, and the redelivery assumption of `Distribution` holds because of `Pipeline.RejectedIsOfferedAgain`.
