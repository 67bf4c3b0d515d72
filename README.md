# Kenku FM relay core, modelled in Dafny

Kenku FM is a desktop app that plays audio (a music player, soundboards and
browser tabs) into a Discord voice channel or to local HTTP listeners. This
project models the sequential logic at the centre of its audio relay and its
state, and proves what that logic promises:

- **Broadcast hub** (`BroadcastHub`): the `serve` loop of the Go relays disgo
  and drongo. It owns a slice of listener channels and handles one event per
  step: subscribe (append), cancel (swap with the last listener, shrink,
  close), a source value (send to every non-nil listener in slice order) and
  shutdown (close every remaining listener). The loop is a pure `Step` over a
  `Hub` value, and a class `BroadcastServer` whose methods are proved
  against it.
- **Ingress re-sequencing** (`Ingress`): disgo `StartStream` and severus
  `receiver::runner` drop packets with an empty payload and number the rest
  with a 16-bit counter that wraps.
- **Session registry** (`Session`): the disgo `join`/`leave` handlers,
  their map from voice channel id to hub subscription, and how the
  `SendAudio` call that `join` makes before answering decides the answer.
- **Voice encryption framing** (`CryptoModes`, `Bytes`): the two Discord
  `*_rtpsize` AEAD modes, their suffix sizes, where the 4-byte nonce sits
  and the per-packet nonce counter.
- **Ogg/Opus stream** (`OggStream`): severus `OpusWriter` pages (the page
  layout of section 6 of RFC 3533, one segment, checksum 0) and the
  `OpusReader` that hands them to the voice library.
- **Audio capture rings** (`Ring`, `SharedBuffer`, `StreamSync`,
  `PcmStream`): the worklets that write render quanta into shared ring
  buffers and the worker that reads kernels back out.
- **Local dispatcher** (`LocalDispatcher`): frame counting, the RTP-style
  sequence and timestamp counters, and pause/resume accounting.
- **Redux reducers** (`Queues`, `PlayerPlayback`, `PlaylistPlayback`,
  `Playlists`, `Soundboards`, `Tabs`, `Bookmarks`, `Input`,
  `RendererPlayback`, over the shared `Tables`, `JsArray` and `JsObject`
  modules): queue, shuffle, move, add, remove and edit operations on the
  `{ byId, allIds }` collections and play queues. Each slice is a class
  whose methods update its fields in place, as Immer's draft does. A
  reducer that throws returns `Fail` and leaves the state unchanged.
- **Discord rules** (`Permissions`, `CloseCodes`, `Gateway`): channel
  permission-overwrite resolution, the close codes after which a session is
  resumed, and the gateway client's guild list and reconnect state.
- **Local broadcaster** (`LocalBroadcast`): the HTTP listener list of the
  local MP3 broadcaster and its per-chunk fan-out.

## Model

| member | source | states |
|---|---|---|
| BroadcastHub.Initial | disgo/broadcast.go:31-38 | A new hub is running, has no listeners and satisfies the hub invariant |
| BroadcastHub.SwapRemove | disgo/broadcast.go:57-65 | Removing an absent channel leaves the slice unchanged; removing a present one shrinks it by exactly one |
| BroadcastHub.SwapOut | disgo/broadcast.go:60-61 | The slice shrinks by one; the emptied slot holds the old last element and every other slot keeps its element |
| BroadcastHub.SwapRemoveAt | disgo/broadcast.go:59-62 | After removal, the removed slot holds the old last listener and every other slot is unchanged |
| BroadcastHub.SwapRemoveDropsOnly | disgo/broadcast.go:57-65 | Swap-removal drops exactly the removed channel: the others stay present and distinct, in a possibly different order |
| BroadcastHub.SwapRemoveCounts | disgo/broadcast.go:59-62 | The slice after swap-removal is the old one minus one copy of the channel, as a multiset |
| BroadcastHub.SwapOutCounts | disgo/broadcast.go:60-61 | Swapping out slot `i` removes exactly one copy of the element that was there, as a multiset |
| BroadcastHub.RemoveSwapsLast | disgo/broadcast.go:57-65 | Cancelling a registered channel moves the last listener into its slot, shrinks the slice by one and closes that channel once; cancelling an unknown channel changes nothing and closes nothing |
| BroadcastHub.DeliveriesInOrder | disgo/broadcast.go:66-79 | A source value is sent once to each non-nil listener, in slice order |
| BroadcastHub.DeliveriesReachEachOnce | disgo/broadcast.go:66-79 | A registered listener receives the value exactly once; an unregistered channel receives nothing |
| BroadcastHub.ValueReachesListeners | disgo/broadcast.go:66-79 | After a source value, each registered listener's received stream is its old stream plus that value; other channels' streams are unchanged |
| BroadcastHub.ReceivedByAppend | disgo/broadcast.go:66-79 | What a channel receives from two batches of sends is what it receives from each, in order |
| BroadcastHub.LiveProperties | disgo/broadcast.go:43-49 | The listeners that are sent to and closed are exactly the non-nil ones, each once |
| BroadcastHub.StepKeepsValid | disgo/broadcast.go:55-79 | Every event keeps the invariant: listeners are distinct, non-nil, never closed while registered, and no channel is closed twice |
| BroadcastHub.StopKeepsValid | disgo/broadcast.go:43-49 | Shutdown keeps the invariant and stops the loop |
| BroadcastHub.StopClosesEach | disgo/broadcast.go:43-49 | On loop exit every registered non-nil listener is closed, and no channel is closed twice |
| BroadcastHub.StoppedStaysStopped | disgo/broadcast.go:66-69 | Once the source closes or the context is cancelled, no later event changes anything |
| BroadcastHub.StepExtendsSent | disgo/broadcast.go:42-82 | A step only appends to the log of sends |
| BroadcastHub.ReceivedOnlyGrows | disgo/broadcast.go:42-82 | Per subscription, what a channel has received is a prefix of what it has received after any later events |
| BroadcastHub.DistinctCounts | disgo/broadcast.go:55-65 | A listener slice is duplicate-free exactly when no channel occurs in it twice as a multiset |
| BroadcastHub.BroadcastServer.constructor | disgo/broadcast.go:31-38 | `NewBroadcastServer`: no listeners, empty logs, the loop running |
| BroadcastHub.BroadcastServer.Subscribe | disgo/broadcast.go:21-25 | A fresh channel is appended to the listener slice; the new state is one `Add` step and keeps the invariant (drongo/broadcast.go:19-23 is the same over byte payloads) |
| BroadcastHub.BroadcastServer.CancelSubscription | disgo/broadcast.go:57-65 | The scan finds the channel, swaps in the last listener, shrinks the slice and closes it; an unknown channel changes nothing; the new state is one `Remove` step (drongo/broadcast.go:55-63 alike) |
| BroadcastHub.BroadcastServer.SwapOutAndClose | disgo/broadcast.go:60-62 | The found slot gets the last listener, the slice shrinks by one and exactly that channel is added to the close log; nothing else changes |
| BroadcastHub.BroadcastServer.Deliver | disgo/broadcast.go:66-79 | The loop over listeners sends the value to every non-nil listener in order; the new state is one `Value` step (drongo/broadcast.go:64-77 alike) |
| BroadcastHub.BroadcastServer.Shutdown | disgo/broadcast.go:43-49 | The deferred loop closes every non-nil listener; the new state is `Stop` of the old one (drongo/broadcast.go:41-47 alike) |
| BroadcastHub.BroadcastServer.Serve | disgo/broadcast.go:42-82 | The whole loop over a sequence of selected events ends in `Run` of those events |
| BroadcastHub.BroadcastServer.DeliverSome | disgo/broadcast.go:70-76 | When the context is cancelled mid-delivery, the sends made are a prefix of the full delivery, in slice order |
| Ingress.WrappingInc | disgo/webrtc.go:121 | The counter increment adds one below 65535 and gives 0 at 65535 (`uint16` `++`, `wrapping_add(1)`) |
| Ingress.UntilStop | severus/src/receiver.rs:34-55 | The packets read before the loop ends are at most the reads |
| Ingress.NonEmpty | disgo/webrtc.go:113 | The kept packets are packets of the input, each with a non-empty payload |
| Ingress.Numbered | disgo/webrtc.go:114-121 | Renumbering keeps the number of packets |
| Ingress.NumberedAt | disgo/webrtc.go:114-121 | The k-th renumbered packet is the k-th packet with number `counter + k` modulo 2^16 |
| Ingress.CounterShift | severus/src/receiver.rs:43 | Incrementing the counter, then counting k-1 more, is counting k from the old value, modulo 2^16 |
| Ingress.ForwardIsNumbered | disgo/webrtc.go:105-122 | The forwarded packets are the non-empty packets read before the loop ended, in order, renumbered from the start value |
| Ingress.ForwardResequences | disgo/webrtc.go:113-121 | Forwarded packets keep payload and timestamp, and the k-th carries `start + k` modulo 2^16 |
| Ingress.ForwardConsecutive | severus/src/receiver.rs:38-43 | Consecutive forwarded packets carry numbers differing by exactly one, wrapping at 16 bits |
| Ingress.EmptyPayloadSkipped | disgo/webrtc.go:113-122 | A packet with an empty payload is not forwarded and does not use up a number |
| Ingress.StopEndsForwarding | severus/src/receiver.rs:45-53 | A read error or a notification ends the loop: nothing after it is forwarded |
| Ingress.Resequence | severus/src/receiver.rs:33-55 | The read loop forwards exactly `Forward(track, start)` and ends with the counter advanced by the number forwarded, modulo 2^16 |
| Ingress.StartStream | disgo/webrtc.go:98-124 | The counter starts at 0: the first forwarded packet is numbered 0 |
| Ingress.OpusEvents.constructor | severus/src/receiver.rs:15-17 | A new bus of capacity 10 with nothing broadcast |
| Ingress.OpusEvents.Notify | severus/src/receiver.rs:19-21 | `notify` broadcasts exactly the packet |
| Ingress.Runner | severus/src/receiver.rs:28-56 | The runner broadcasts, in order, exactly the re-sequenced non-empty packets read before the loop ends |
| Session.WriteHeader | disgo/main.go:60-63 | Only the first status written reaches the client |
| Session.RejoinKeepsEarlier | disgo/main.go:65-72 | Joining a channel again leaves the earlier subscription registered with the hub and not closed |
| Session.Relay.constructor | disgo/main.go:51-91 | The registry starts empty over a valid hub |
| Session.SendAudio | disgo/discord.go:112-125 | A nil connection panics. A ready connection forwards packets until its subscription is closed, then panics on the nil packet, so the call never returns normally. Only a connection that is not ready returns |
| Session.Relay.Join | disgo/main.go:51-74 | A failed voice join writes 502 before `SendAudio` but still stores a nil connection, subscribes and registers the new subscription under the channel id. The client gets an answer only when the join succeeded on a connection that is not ready, and that answer is 201. A ready connection keeps the handler streaming, and the nil connection makes it panic, so neither sends anything |
| Session.Relay.Leave | disgo/main.go:76-91 | The subscription under the channel id is cancelled with the hub (a nil channel, so nothing, when none is registered), the id is forgotten, and the answer is 201 |
| Bytes.LE | severus/src/stream.rs:131-134 | The little-endian encoding of a `width`-byte integer has `width` bytes |
| Bytes.FromLE | severus/src/stream.rs:54-57 | Reading `n` little-endian bytes gives a number below 256^n |
| Bytes.LERoundTrip | severus/src/stream.rs:131-134 | Reading back little-endian bytes gives the number written |
| Bytes.BE | severus/src/encrypt.rs:168-189 | The big-endian encoding of a `width`-byte integer has `width` bytes |
| Bytes.FromBE | severus/src/encrypt.rs:120-136 | Reading `n` big-endian bytes gives a number below 256^n |
| Bytes.BERoundTrip | severus/src/encrypt.rs:168-189 | Reading back big-endian bytes gives the number written |
| Bytes.BEIsReversedLE | severus/src/encrypt.rs:168-189 | The big-endian bytes of a number are its little-endian bytes reversed |
| CryptoModes.FromStr | severus/src/encrypt.rs:56-62 | Exactly the two `*_rtpsize` names parse, each to its own mode; every other string is `UnrecognisedCryptoMode` |
| CryptoModes.FromStrName | severus/src/encrypt.rs:56-62 | Parsing a mode's name gives the mode back |
| CryptoModes.PayloadSuffixLen | severus/src/encrypt.rs:107-109 | The suffix after the payload is the nonce plus the tag: 20 bytes for both modes |
| CryptoModes.NonceSlice | severus/src/encrypt.rs:120-136 | A body shorter than the suffix is an error; otherwise the body splits into the rest and a trailing 4-byte nonce |
| CryptoModes.KindFromMode | severus/src/encrypt.rs:155-164 | Making a state from a mode and taking its kind gives the mode back; the nonce starts at the random value |
| CryptoModes.Advance | severus/src/encrypt.rs:168-189 | After a packet the state keeps its mode and the nonce grows by one, wrapping to 0 after 2^32-1 |
| CryptoModes.WritePacketNonce | severus/src/encrypt.rs:168-189 | The current nonce is written big-endian into the 4 bytes ending at the new end of packet; every other byte is unchanged; the nonce advances |
| CryptoModes.NonceSliceFindsWrittenNonce | severus/src/encrypt.rs:120-136 | Encryption slices back out exactly the nonce `write_packet_nonce` wrote at the end of the body |
| CryptoModes.AdvanceNCounts | severus/src/encrypt.rs:183-186 | After n packets the nonce is the start plus n modulo 2^32, in the same mode |
| OggStream.Page | severus/src/stream.rs:115-144 | A page is a 27-byte header starting "OggS", a segment-size byte equal to the payload length modulo 256, then the payload |
| OggStream.ParsePage | severus/src/stream.rs:49-59 | Parsing a written page's header gives back every field written |
| OggStream.Depacketize | severus/src/stream.rs:152-153 | An Opus RTP payload is the Opus packet itself; an empty one is an error |
| OggStream.NextGranule | severus/src/stream.rs:155-160 | The granule position is unchanged after the first packet and otherwise grows by the timestamp delta |
| OggStream.OpusWriter.constructor | severus/src/stream.rs:100-113 | An empty buffer, 48 kHz stereo, page index 0, timestamp and granule sentinels 1, the random serial |
| OggStream.OpusWriter.WritePage | severus/src/stream.rs:115-144 | The buffer gains exactly one page and the payload is remembered |
| OggStream.OpusWriter.WriteRtp | severus/src/stream.rs:148-171 | An empty payload fails with nothing changed; otherwise the granule and timestamp advance, one continuation page is written and the page index grows by one |
| OggStream.OpusWriter.Close | severus/src/stream.rs:173-187 | The last payload is repeated on an end-of-stream page numbered `page_index - 1` |
| OggStream.I16LE | severus/src/stream.rs:45-46 | A size is written as two bytes |
| OggStream.ReadAsWritten | severus/src/stream.rs:36-83 | The reader as written panics exactly on a size read with 27 buffered bytes |
| OggStream.ReadAsWrittenPanicsOnPartialHeader | severus/src/stream.rs:43-49 | With 27 bytes buffered the 27-byte guard lets the read through to the 28-byte slice, which panics |
| OggStream.Read | severus/src/stream.rs:36-83 | A size read returns the segment size and consumes the header when it is buffered, else the last size; a payload read copies and consumes exactly the requested bytes when buffered, else nothing; the count is always the buffer length |
| OggStream.ReadAgreesWhereNoPanic | severus/src/stream.rs:36-83 | The corrected reader agrees with the reader as written on every input where the latter does not panic |
| OggStream.PageRoundTrip | severus/src/stream.rs:36-144 | A page for a 1 to 255 byte payload (not 2), read as a size and then that many bytes, yields the payload and leaves what followed |
| OggStream.TwoBytePayloadMisread | severus/src/stream.rs:42-48 | A 2-byte payload is mistaken for a size read and is not returned as the payload |
| OggStream.OpusReader.constructor | severus/src/stream.rs:27-32 | A reader starts with no payload size remembered |
| OggStream.OpusReader.ReadInto | severus/src/stream.rs:36-83 | One read fills the front of the buffer, drains the writer's data and returns the count, as `Read` says; the writer's other fields are untouched |
| Ring.RingWrite | src/audioCapture/SharedBuffer.worklet.js:62-80 | The bulk write keeps the ring's length |
| Ring.RingWriteWrites | src/audioCapture/SharedBuffer.worklet.js:62-80 | The one-piece and two-piece writes put the k-th input item k places after the write index round the ring and leave every other position alone |
| Ring.RingWrittenUnique | src/audioCapture/SharedBuffer.worklet.js:62-80 | A ring write determines the buffer uniquely |
| Ring.RingRead | src/audioCapture/StreamSync.worker.js:27-35 | Reading n items round the ring from p gives item k from position (p+k) mod length |
| Ring.ReadAfterWrite | src/audioCapture/StreamSync.worker.js:27-35 | Reading from where a write started gives back exactly what was written |
| Ring.RingStore | src/audioCapture/PCMStream.worklet.js:52-61 | Storing items one at a time keeps the ring's length |
| Ring.StoreKeepsLatest | src/audioCapture/PCMStream.worklet.js:52-61 | The ring holds the latest items stored, item k at k places after the start pointer |
| Ring.StoreLeavesRest | src/audioCapture/PCMStream.worklet.js:52-61 | Positions the store did not reach keep their contents |
| Ring.StoreIsRingWrite | src/audioCapture/PCMStream.worklet.js:52-61 | Storing at most a ring's worth of items one at a time is the same as one bulk ring write |
| Ring.OffsetOfStep | src/audioCapture/StreamSync.worker.js:29-35 | The position d steps after p is (p+d) mod length and is d steps after p |
| SharedBuffer.NextWriteIndex | src/audioCapture/SharedBuffer.worklet.js:64-80 | The write index after n frames is the old one plus n modulo the ring length, in both branches |
| SharedBuffer.SharedBufferProcessor.constructor | src/audioCapture/SharedBuffer.worklet.js:25-28 | Not initialised until the port message |
| SharedBuffer.SharedBufferProcessor.OnMessage | src/audioCapture/SharedBuffer.worklet.js:29-37 | The port message installs the states and rings and reads the ring and kernel lengths once |
| SharedBuffer.SharedBufferProcessor.SetRow | src/audioCapture/SharedBuffer.worklet.js:67 | `set` copies the source into one channel from the offset; every other position and channel is unchanged |
| SharedBuffer.SharedBufferProcessor.WriteInput | src/audioCapture/SharedBuffer.worklet.js:62-82 | Every channel is ring-written from the write index; the write index moves round the ring; the frame count grows by the quantum length; no other state changes |
| SharedBuffer.SharedBufferProcessor.SetChannelWhole | src/audioCapture/SharedBuffer.worklet.js:66-68 | A write that fits puts the k-th frame k slots after the write index and leaves the rest of the ring and the other channels alone |
| SharedBuffer.SharedBufferProcessor.SetChannelSplit | src/audioCapture/SharedBuffer.worklet.js:74-77 | A write that wraps puts the k-th frame k slots after the write index, round the ring, and returns the wrapped part |
| SharedBuffer.SharedBufferProcessor.Process | src/audioCapture/SharedBuffer.worklet.js:43-56 | Nothing happens before the port message; an input with the wrong channel count is dropped; the worker is woken exactly when a kernel's worth of frames is available |
| StreamSync.StreamSyncWorker.constructor | src/audioCapture/StreamSync.worker.js:50-54 | `onmessage` installs the states and ring and reads the two lengths |
| StreamSync.StreamSyncWorker.OnSendRequest | src/audioCapture/StreamSync.worker.js:23-48 | One wake-up posts the kernel read round the ring from the read index, moves the read index on round the ring, takes the kernel off the frame count and clears the request flag |
| PcmStream.Interleaving | src/audioCapture/PCMStream.worklet.js:84-100 | Left samples go to even positions and right samples to odd ones |
| PcmStream.DeinterleaveRoundTrip | src/audioCapture/PCMStream.worklet.js:84-100 | The even and odd positions of an interleaving give back the two channels |
| PcmStream.PcmStreamProcessor.constructor | src/audioCapture/PCMStream.worklet.js:20-23 | Pointer 0, not initialised |
| PcmStream.PcmStreamProcessor.OnMessage | src/audioCapture/PCMStream.worklet.js:24-28 | The port message installs the shared ring |
| PcmStream.PcmStreamProcessor.Interleave | src/audioCapture/PCMStream.worklet.js:84-100 | The loop fills a new array with the interleaving of the two channels |
| PcmStream.PcmStreamProcessor.BufferPcm | src/audioCapture/PCMStream.worklet.js:52-61 | The ring becomes the samples stored one at a time from the pointer; the pointer moves on modulo the ring length; the sender is woken once per wrap to 0 |
| PcmStream.PcmStreamProcessor.Process | src/audioCapture/PCMStream.worklet.js:34-45 | Before the port message nothing is stored; a stereo input is interleaved, converted and stored; any other input is dropped |
| LocalDispatcher.NextSequence | src/main/LocalDispatcher.ts:264-266 | The sequence number after a frame is one more, modulo 2^16 |
| LocalDispatcher.NextTimestamp | src/main/LocalDispatcher.ts:265-267 | The timestamp stays below 2^32 and stays a multiple of 960 |
| LocalDispatcher.SequenceAfterFrames | src/main/LocalDispatcher.ts:264-266 | After n frames the sequence number is n modulo 2^16 |
| LocalDispatcher.TimestampAfterFrames | src/main/LocalDispatcher.ts:265-267 | After n frames the timestamp is 960 times (n modulo 4473925) |
| LocalDispatcher.TimestampStep | src/main/LocalDispatcher.ts:265-267 | One frame after the m-th multiple of 960 comes the next one, or 0 at the end of the period |
| LocalDispatcher.TimestampResetIsNotWrap | src/main/LocalDispatcher.ts:267 | At the reset the timestamp goes to 0, where wrapping modulo 2^32 would give 704 |
| LocalDispatcher.Dispatcher.constructor | src/main/LocalDispatcher.ts:57-80 | Not paused, nothing written, counters at 0 |
| LocalDispatcher.Dispatcher.Pause | src/main/LocalDispatcher.ts:133-141 | Already paused: no change; otherwise Opus is unpiped, silence is piped if asked (which fails without a silence source), the pause start is noted; writes are released while paused exactly when silence plays; the paused time is preserved |
| LocalDispatcher.Dispatcher.Resume | src/main/LocalDispatcher.ts:170-181 | Not paused: no change; otherwise silence is unpiped (failing, with nothing changed, without a silence source), Opus is piped back, and the pause is added to the silent or plain paused time, which keeps the total paused time |
| LocalDispatcher.Dispatcher.Step | src/main/LocalDispatcher.ts:249-269 | The frame is counted (stream time +20 ms); without a broadcast the callback is due when the playing time reaches the new stream time; the sequence and timestamp move on |
| LocalDispatcher.Dispatcher.Write | src/main/LocalDispatcher.ts:236-247 | The first write starts the clock. Every write is one step: the frame is counted, and the callback is scheduled, with the delay to the frame's end, exactly when there is no broadcast. The sequence number and timestamp move on, and the pause totals and pipes are kept |
| JsArray.IndexOf | src/player/features/playlists/playlistsSlice.ts:92-100 | The first index holding the value, or -1 exactly when absent |
| JsArray.SpliceStart | src/renderer/features/tabs/tabsSlice.ts:63-71 | A negative start counts from the end, a start in range is kept, the result is within the array |
| JsArray.Without | src/renderer/features/input/inputSlice.ts:34-36 | The filtered list lacks the value, keeps only old elements, and is the list itself when the value is absent |
| JsArray.WithoutAppend | src/renderer/features/input/inputSlice.ts:34-36 | Filtering keeps the order of the kept elements |
| JsArray.WithoutCounts | src/renderer/features/input/inputSlice.ts:34-36 | Filtering keeps every other value exactly as often as before |
| JsArray.MovePermutes | src/player/features/playlists/playlistsSlice.ts:92-100 | With both ids present, a move is a permutation that puts the moved id at the target's old index |
| JsArray.MoveUnknownActive | src/player/features/playlists/playlistsSlice.ts:101-114 | Moving an absent id drops the last element (`splice(-1, 1)`) and inserts the id |
| JsObject.Spread | src/player/features/playlists/playlistsSlice.ts:56-64 | The patch's fields win; the base's other fields are kept |
| JsObject.StrId | src/player/features/playlists/playlistsSlice.ts:56-64 | An id passes `if (!payload.id)` exactly when present and not empty |
| JsObject.NumId | src/renderer/features/tabs/tabsSlice.ts:52-62 | A numeric id passes `if (!payload.id)` exactly when present and not 0 |
| Tables.Add | src/player/features/playlists/playlistsSlice.ts:37-40 | The record is stored under its id, other records are unchanged, and the id is appended |
| Tables.Remove | src/renderer/features/bookmarks/bookmarksSlice.ts:32-37 | The id leaves the map and every occurrence leaves the id list; the other records and ids are kept |
| Tables.RemoveUndoesAdd | src/renderer/features/bookmarks/bookmarksSlice.ts:28-37 | Removing a freshly added id gives back the collection |
| Tables.Merge | src/player/features/playlists/playlistsSlice.ts:56-64 | The record gains the patch's fields and keeps its other fields; other records are unchanged |
| Tables.MergeIdempotent | src/player/features/playlists/playlistsSlice.ts:56-64 | Applying the same edit twice is applying it once |
| Tables.Edit | src/renderer/features/bookmarks/bookmarksSlice.ts:38-46 | An edit merges into the record and leaves the id order alone |
| Tables.MoveIds | src/renderer/features/bookmarks/bookmarksSlice.ts:47-55 | A move leaves the records alone and permutes the ids when both are present |
| Tables.Children | src/player/features/playlists/playlistsSlice.ts:65-72 | The owner's child list exists exactly when the owner and its list field do |
| Tables.SetChildren | src/player/features/playlists/playlistsSlice.ts:65-72 | Only the owner's child list changes |
| Tables.StoreAll | src/player/features/soundboards/soundboardsSlice.ts:68-79 | Storing a list adds exactly the list's ids to the map |
| Tables.StoreAllStores | src/player/features/soundboards/soundboardsSlice.ts:68-79 | Each record is found under its id unless a later record has the same id |
| Tables.StoreAllKeepsOthers | src/player/features/soundboards/soundboardsSlice.ts:68-79 | Records under ids not in the list are untouched |
| Queues.Range | src/player/features/playback/playbackSlice.ts:47-70 | The indices 0 to n-1 in order |
| Queues.StartQueuePermutation | src/player/features/playback/playbackSlice.ts:47-70 | With the track present, the play order is a permutation of all indices with the chosen one first, and `current` names the track |
| Queues.StartRestMultiset | src/player/features/playback/playbackSlice.ts:47-70 | The chosen index put back in front of the indices handed to `shuffleArray` is every index exactly once |
| Queues.StartQueueUnknownTrack | src/player/features/playback/playbackSlice.ts:47-70 | With the track absent, -1 comes first and the last track is left out of the play order |
| Queues.UpdateQueue | src/player/features/playback/playbackSlice.ts:71-75 | Only an existing queue has `current` set |
| Queues.ReshufflePermutes | src/player/features/playback/playbackSlice.ts:76-85 | Reshuffling keeps the play order a permutation and puts the current index first |
| Queues.MoveQueueKeepsCurrent | src/player/features/playback/playbackSlice.ts:86-109 | Moving permutes the tracks, puts the moved track at the target's index, and `current` still names the same track |
| Queues.Bump | src/player/features/playback/playbackSlice.ts:110-124 | Every play-order index is raised by one |
| Queues.BumpCounts | src/player/features/playback/playbackSlice.ts:110-124 | Raising every index by one shifts the multiset by one |
| Queues.BumpCountAt | src/player/features/playback/playbackSlice.ts:110-124 | Each index occurs in the raised order as often as the index below it did before |
| Queues.BumpSameCounts | src/player/features/playback/playbackSlice.ts:110-124 | Raising indices preserves being a rearrangement |
| Queues.BumpRange | src/player/features/playback/playbackSlice.ts:110-124 | 0 followed by the raised indices 0..n-1 is 0..n |
| Queues.AddTrackPermutes | src/player/features/playback/playbackSlice.ts:110-124 | Adding a track keeps the play order a permutation of all indices |
| Queues.AddTrackKeepsOrder | src/player/features/playback/playbackSlice.ts:110-124 | The new track plays first, the old tracks keep their order after it, and `current` names the same track |
| PlayerPlayback.NextRepeat | src/player/features/playback/playbackSlice.ts:164-176 | A toggle always changes the repeat mode |
| PlayerPlayback.RepeatCycles | src/player/features/playback/playbackSlice.ts:164-176 | Three toggles cycle through all three modes and back |
| PlayerPlayback.StepVolume | src/player/features/playback/playbackSlice.ts:149-154 | The stepped volume never exceeds 1 and is the plain sum below that |
| PlayerPlayback.VolumeBounds | src/player/features/playback/playbackSlice.ts:149-154 | Increasing never passes 1; decreasing has no lower clamp and can go below 0 |
| PlayerPlayback.PlaybackSlice.constructor | src/player/features/playback/playbackSlice.ts:35-41 | The initial state |
| PlayerPlayback.PlaybackSlice.StartQueue | src/player/features/playback/playbackSlice.ts:47-70 | The queue becomes the started queue; with the track present its play order is a permutation with the track first |
| PlayerPlayback.PlaybackSlice.UpdateQueue | src/player/features/playback/playbackSlice.ts:71-75 | Only an existing queue is updated; nothing else changes |
| PlayerPlayback.PlaybackSlice.ShuffleQueue | src/player/features/playback/playbackSlice.ts:76-85 | The current index goes first and the rest is reshuffled, keeping a permutation |
| PlayerPlayback.PlaybackSlice.MoveQueueIfNeeded | src/player/features/playback/playbackSlice.ts:86-109 | Only the same playlist's unshuffled queue is reordered, keeping the current track |
| PlayerPlayback.PlaybackSlice.AddTrackToQueueIfNeeded | src/player/features/playback/playbackSlice.ts:110-124 | A track added to the playing playlist joins the queue first |
| PlayerPlayback.PlaybackSlice.PlayTrack | src/player/features/playback/playbackSlice.ts:125-132 | Plays the track from the start |
| PlayerPlayback.PlaybackSlice.StopTrack | src/player/features/playback/playbackSlice.ts:133-137 | No track, no progress, not playing |
| PlayerPlayback.PlaybackSlice.PlayPause | src/player/features/playback/playbackSlice.ts:138-140 | Sets only the playing flag |
| PlayerPlayback.PlaybackSlice.UpdatePlayback | src/player/features/playback/playbackSlice.ts:141-145 | Only existing progress is updated |
| PlayerPlayback.PlaybackSlice.AdjustVolume | src/player/features/playback/playbackSlice.ts:146-148 | Sets only the volume |
| PlayerPlayback.PlaybackSlice.DecreaseVolume | src/player/features/playback/playbackSlice.ts:149-151 | Steps the volume down, unclamped |
| PlayerPlayback.PlaybackSlice.IncreaseVolume | src/player/features/playback/playbackSlice.ts:152-154 | Steps the volume up, never above 1 |
| PlayerPlayback.PlaybackSlice.ToggleMute | src/player/features/playback/playbackSlice.ts:155-157 | Flips only the mute flag |
| PlayerPlayback.PlaybackSlice.Mute | src/player/features/playback/playbackSlice.ts:158-160 | Sets only the mute flag |
| PlayerPlayback.PlaybackSlice.Shuffle | src/player/features/playback/playbackSlice.ts:161-163 | Sets only the shuffle flag; the queue is left as it is |
| PlayerPlayback.PlaybackSlice.ToggleRepeat | src/player/features/playback/playbackSlice.ts:164-176 | Moves only the repeat mode to the next one |
| PlayerPlayback.PlaybackSlice.SetRepeat | src/player/features/playback/playbackSlice.ts:177-179 | Sets only the repeat mode |
| PlaylistPlayback.PlayingIndex | src/player/features/playlists/playlistPlaybackSlice.ts:138-158 | Without shuffle `current` is the track index; with shuffle it names one exactly when it is a position of the play order |
| PlaylistPlayback.ToggleShuffleKeepsTrack | src/player/features/playlists/playlistPlaybackSlice.ts:138-158 | Toggling shuffle keeps the same track playing and the tracks unchanged; switching on keeps a permutation with the playing track first |
| PlaylistPlayback.PlaylistPlaybackSlice.constructor | src/player/features/playlists/playlistPlaybackSlice.ts:31-37 | The initial state |
| PlaylistPlayback.StartQueueShuffledMisreads | src/player/features/playlists/playlistPlaybackSlice.ts:43-66 | As written, with shuffle on, tracks `[a, b, c]` started on `b` store `current` 1, which the slice reads as a play-order position, naming `a` |
| PlaylistPlayback.PlaylistStartQueue | src/player/features/playlists/playlistPlaybackSlice.ts:43-66 | The corrected start keeps the tracks and playlist and puts the chosen index first in the play order |
| PlaylistPlayback.PlaylistStartQueuePlaysChosen | src/player/features/playlists/playlistPlaybackSlice.ts:43-66 | With the correction the chosen track is the one playing whatever the shuffle flag, and the play order is a permutation |
| PlaylistPlayback.PlaylistPlaybackSlice.StartQueue | src/player/features/playlists/playlistPlaybackSlice.ts:43-66 | The corrected half of the Findings row. The play order is a permutation with the chosen track first. `current` names the chosen track as playing, shuffled or not |
| PlaylistPlayback.PlaylistPlaybackSlice.UpdateQueue | src/player/features/playlists/playlistPlaybackSlice.ts:67-71 | Only an existing queue is updated |
| PlaylistPlayback.PlaylistPlaybackSlice.MoveQueueIfNeeded | src/player/features/playlists/playlistPlaybackSlice.ts:72-95 | Only the same playlist's unshuffled queue is reordered, keeping the current track |
| PlaylistPlayback.PlaylistPlaybackSlice.AddTrackToQueueIfNeeded | src/player/features/playlists/playlistPlaybackSlice.ts:96-110 | A track added to the playing playlist joins the queue first |
| PlaylistPlayback.PlaylistPlaybackSlice.PlayTrack | src/player/features/playlists/playlistPlaybackSlice.ts:111-118 | Plays the track from the start |
| PlaylistPlayback.PlaylistPlaybackSlice.StopTrack | src/player/features/playlists/playlistPlaybackSlice.ts:119-123 | No track, no progress, not playing |
| PlaylistPlayback.PlaylistPlaybackSlice.PlayPause | src/player/features/playlists/playlistPlaybackSlice.ts:124-126 | Sets only the playing flag |
| PlaylistPlayback.PlaylistPlaybackSlice.UpdatePlayback | src/player/features/playlists/playlistPlaybackSlice.ts:127-131 | Only existing progress is updated |
| PlaylistPlayback.PlaylistPlaybackSlice.AdjustVolume | src/player/features/playlists/playlistPlaybackSlice.ts:132-134 | Sets only the volume |
| PlaylistPlayback.PlaylistPlaybackSlice.Mute | src/player/features/playlists/playlistPlaybackSlice.ts:135-137 | Sets only the mute flag |
| PlaylistPlayback.PlaylistPlaybackSlice.Shuffle | src/player/features/playlists/playlistPlaybackSlice.ts:138-158 | Converts `current` between play-order position and track index and sets the flag even without a queue |
| PlaylistPlayback.PlaylistPlaybackSlice.SetRepeat | src/player/features/playlists/playlistPlaybackSlice.ts:159-161 | Sets only the repeat mode |
| Playlists.PrependTrack | src/player/features/playlists/playlistsSlice.ts:65-72 | The new track id goes first, the old ones follow unchanged |
| Playlists.RemoveTrackUndoesAdd | src/player/features/playlists/playlistsSlice.ts:65-82 | Removing a track just added gives back the playlist's tracks |
| Playlists.PlaylistsSlice.constructor | src/player/features/playlists/playlistsSlice.ts:25-31 | The initial state |
| Playlists.PlaylistsSlice.AddPlaylist | src/player/features/playlists/playlistsSlice.ts:37-40 | Stores the playlist and appends its id |
| Playlists.PlaylistsSlice.RemovePlaylist | src/player/features/playlists/playlistsSlice.ts:41-52 | Deletes the playlist's tracks and the playlist; an unknown playlist throws with nothing changed |
| Playlists.PlaylistsSlice.SelectPlaylist | src/player/features/playlists/playlistsSlice.ts:53-55 | Sets only the selection |
| Playlists.PlaylistsSlice.EditPlaylist | src/player/features/playlists/playlistsSlice.ts:56-64 | Throws without an id; otherwise merges the patch |
| Playlists.PlaylistsSlice.AddTrack | src/player/features/playlists/playlistsSlice.ts:65-72 | The track id goes first in the playlist and the track is stored; an unknown playlist throws |
| Playlists.PlaylistsSlice.RemoveTrack | src/player/features/playlists/playlistsSlice.ts:73-82 | Every occurrence leaves the playlist and the track is deleted; an unknown playlist throws |
| Playlists.PlaylistsSlice.EditTrack | src/player/features/playlists/playlistsSlice.ts:83-91 | Throws without an id; otherwise merges into the track |
| Playlists.PlaylistsSlice.MovePlaylist | src/player/features/playlists/playlistsSlice.ts:92-100 | Reorders the playlist ids only |
| Playlists.PlaylistsSlice.MoveTrack | src/player/features/playlists/playlistsSlice.ts:101-114 | Reorders the playlist's tracks; an unknown playlist throws |
| Soundboards.PrependSounds | src/player/features/soundboards/soundboardsSlice.ts:68-79 | The new ids come first in their order, then the old ones |
| Soundboards.SoundboardsSlice.constructor | src/player/features/soundboards/soundboardsSlice.ts:26-32 | The initial state |
| Soundboards.SoundboardsSlice.AddSoundboard | src/player/features/soundboards/soundboardsSlice.ts:38-41 | Stores the board and appends its id |
| Soundboards.SoundboardsSlice.RemoveSoundboard | src/player/features/soundboards/soundboardsSlice.ts:42-50 | Deletes the board's sounds and the board; an unknown board throws |
| Soundboards.SoundboardsSlice.EditSoundboard | src/player/features/soundboards/soundboardsSlice.ts:51-59 | Throws without an id; otherwise merges the patch |
| Soundboards.SoundboardsSlice.AddSound | src/player/features/soundboards/soundboardsSlice.ts:60-67 | The sound id goes first on the board and the sound is stored; an unknown board throws |
| Soundboards.SoundboardsSlice.AddSounds | src/player/features/soundboards/soundboardsSlice.ts:68-79 | The new ids go first in order and each sound is stored; an unknown board throws |
| Soundboards.SoundboardsSlice.RemoveSound | src/player/features/soundboards/soundboardsSlice.ts:80-89 | Every occurrence leaves the board and the sound is deleted; an unknown board throws |
| Soundboards.SoundboardsSlice.EditSound | src/player/features/soundboards/soundboardsSlice.ts:90-98 | Throws without an id; otherwise merges into the sound |
| Soundboards.SoundboardsSlice.MoveSoundboard | src/player/features/soundboards/soundboardsSlice.ts:99-107 | Reorders the board ids only |
| Soundboards.SoundboardsSlice.MoveSound | src/player/features/soundboards/soundboardsSlice.ts:108-121 | Reorders the board's sounds; an unknown board throws |
| Tabs.IncreaseMedia | src/renderer/features/tabs/tabsSlice.ts:72-76 | The count grows by one; a missing count becomes NaN; other fields are kept |
| Tabs.DecreaseMedia | src/renderer/features/tabs/tabsSlice.ts:77-84 | The count shrinks by one but never below 0; other fields are kept |
| Tabs.DecreaseUndoesIncrease | src/renderer/features/tabs/tabsSlice.ts:72-84 | A media that starts then stops leaves a non-negative count as it was |
| Tabs.TabsSlice.constructor | src/renderer/features/tabs/tabsSlice.ts:21-26 | The initial state |
| Tabs.TabsSlice.AddTab | src/renderer/features/tabs/tabsSlice.ts:32-35 | Stores the tab and appends its id |
| Tabs.TabsSlice.RemoveTab | src/renderer/features/tabs/tabsSlice.ts:36-44 | Removes the tab and unselects it if selected |
| Tabs.TabsSlice.SelectTab | src/renderer/features/tabs/tabsSlice.ts:45-51 | Hides the previous view only when its id is truthy (never tab 0), selects and shows the new one |
| Tabs.TabsSlice.EditTab | src/renderer/features/tabs/tabsSlice.ts:52-62 | Throws without an id (0 included); merges only into an existing tab |
| Tabs.TabsSlice.MoveTab | src/renderer/features/tabs/tabsSlice.ts:63-71 | Reorders the tab ids only |
| Tabs.TabsSlice.IncreaseTabPlayingMedia | src/renderer/features/tabs/tabsSlice.ts:72-76 | Only a known tab's count changes |
| Tabs.TabsSlice.DecreaseTabPlayingMedia | src/renderer/features/tabs/tabsSlice.ts:77-84 | Only a known tab's count changes, stopping at 0 |
| Bookmarks.BookmarksSlice.constructor | src/renderer/features/bookmarks/bookmarksSlice.ts:17-22 | The initial state |
| Bookmarks.BookmarksSlice.AddBookmark | src/renderer/features/bookmarks/bookmarksSlice.ts:28-31 | Stores the bookmark and appends its id |
| Bookmarks.BookmarksSlice.RemoveBookmark | src/renderer/features/bookmarks/bookmarksSlice.ts:32-37 | Deletes it and every occurrence of its id |
| Bookmarks.BookmarksSlice.EditBookmark | src/renderer/features/bookmarks/bookmarksSlice.ts:38-46 | Throws without an id; otherwise merges the patch |
| Bookmarks.BookmarksSlice.MoveBookmark | src/renderer/features/bookmarks/bookmarksSlice.ts:47-55 | Reorders the ids only |
| Input.WithInput | src/renderer/features/input/inputSlice.ts:28-33 | Appends the id unless present, so the list never gains a duplicate |
| Input.WithoutNoDuplicates | src/renderer/features/input/inputSlice.ts:34-36 | Removing keeps the list free of duplicates |
| Input.RemoveUndoesAdd | src/renderer/features/input/inputSlice.ts:28-36 | Removing an input just added gives back the list |
| Input.InputSlice.constructor | src/renderer/features/input/inputSlice.ts:13-16 | The initial state |
| Input.InputSlice.SetDevices | src/renderer/features/input/inputSlice.ts:22-24 | Replaces only the devices |
| Input.InputSlice.SetInput | src/renderer/features/input/inputSlice.ts:25-27 | Exactly one input |
| Input.InputSlice.AddInput | src/renderer/features/input/inputSlice.ts:28-33 | Adds the input unless already there |
| Input.InputSlice.RemoveInput | src/renderer/features/input/inputSlice.ts:34-36 | Every occurrence goes; the others keep their order and counts |
| RendererPlayback.JsRem | src/renderer/features/playback/playbackSlice.ts:66-75 | JavaScript's `%`: the remainder has the dividend's sign |
| RendererPlayback.ItemAt | src/renderer/features/playback/playbackSlice.ts:61-64 | An item exactly for an index inside the list |
| RendererPlayback.CurrentItem | src/renderer/features/playback/playbackSlice.ts:61-64 | The active list's item at `current`, if any |
| RendererPlayback.NextItem | src/renderer/features/playback/playbackSlice.ts:66-75 | The item after `current`, wrapping with `loop`; none after the last without it |
| RendererPlayback.NextIsCurrentAfterAdvance | src/renderer/features/playback/playbackSlice.ts:61-75 | The next item is the current item once `current` advances by one (wrapping with `loop`) |
| RendererPlayback.LoopAlwaysHasNext | src/renderer/features/playback/playbackSlice.ts:66-75 | With `loop`, a non-empty list always has a next item, the first one after the last |
| RendererPlayback.PlaybackSlice.constructor | src/renderer/features/playback/playbackSlice.ts:16-23 | The initial state |
| RendererPlayback.PlaybackSlice.Queue | src/renderer/features/playback/playbackSlice.ts:29-35 | Replaces the queue; with shuffle on the shuffled copy is a rearrangement of it |
| RendererPlayback.PlaybackSlice.Load | src/renderer/features/playback/playbackSlice.ts:36-45 | `current` is the item's index in the active list; loading starts only when the item is there |
| RendererPlayback.PlaybackSlice.Play | src/renderer/features/playback/playbackSlice.ts:46-48 | Sets only the state to playing |
| RendererPlayback.PlaybackSlice.Pause | src/renderer/features/playback/playbackSlice.ts:49-51 | Sets only the state to paused |
| RendererPlayback.PlaybackSlice.Stop | src/renderer/features/playback/playbackSlice.ts:52-55 | Nothing is current any more |
| Permissions.CheckPermission | src/discord/permissions/hasPermission.ts:89-92 | The mask holds the permission exactly when every bit of the permission is set in it |
| Permissions.AndCovers | src/discord/permissions/hasPermission.ts:89-92 | `(incoming & permission) === permission` exactly when the mask covers every bit |
| Permissions.GuildValue | src/discord/permissions/hasPermission.ts:35-44 | No base permissions say nothing; otherwise allow exactly when the mask holds the permission |
| Permissions.ChannelPermission | src/discord/permissions/hasPermission.ts:46-84 | The overwrite scan returns what the overwrites decide: any applying allow wins, else any applying deny denies, else nothing |
| Permissions.HasPermission | src/discord/permissions/hasPermission.ts:19-33 | The channel's overwrites decide unless they say nothing; then the guild's base permissions do |
| Permissions.NoOverwritesDefersToGuild | src/discord/permissions/hasPermission.ts:19-44 | Without overwrites the guild decides, and no base permissions means no |
| Permissions.AllowOverwriteWins | src/discord/permissions/hasPermission.ts:46-84 | An applying overwrite that allows grants the permission whatever else applies |
| Permissions.EmptyPermissionAlwaysHeld | src/discord/permissions/hasPermission.ts:89-92 | Permission 0 is held by every mask |
| Permissions.SingleBitPermission | src/discord/permissions/hasPermission.ts:89-92 | For a single-bit permission, holding it is testing that bit |
| CloseCodes.GatewayShouldResume | src/discord/gateway/GatewayCloseCode.ts:47-62 | No resume exactly for the nine listed codes; any other code, and no code, resumes |
| CloseCodes.VoiceShouldResume | src/discord/voice/VoiceGatewayCloseCode.ts:43-58 | No resume exactly for the nine listed voice codes |
| CloseCodes.GatewayResumesAfterTransientClose | src/discord/gateway/GatewayCloseCode.ts:47-62 | A missed heartbeat, an unknown error, a timed-out session or no code resume |
| CloseCodes.VoiceResumesAfterTransientClose | src/discord/voice/VoiceGatewayCloseCode.ts:43-58 | A crashed voice server, a timed-out session, a missed heartbeat or no code resume |
| CloseCodes.GatewaysDisagreeOnFourCodes | src/discord/voice/VoiceGatewayCloseCode.ts:43-58 | The two gateways disagree exactly on 4006, 4010, 4013 and 4016 |
| Gateway.FindGuild | src/discord/gateway/Gateway.ts:150-157 | The first guild with the id, or -1 exactly when there is none |
| Gateway.CreateGuild | src/discord/gateway/Gateway.ts:150-157 | A known guild is replaced in place, an unknown one appended; other guilds kept; ids stay unique |
| Gateway.DeleteGuild | src/discord/gateway/Gateway.ts:158-163 | With no guild of that id the list is unchanged; otherwise it is one shorter and the guilds after the first match move down one slot, those before it stay |
| Gateway.DeleteGuildRemoves | src/discord/gateway/Gateway.ts:158-163 | With unique ids, after a delete no guild has that id and ids stay unique |
| Gateway.UpdateGuild | src/discord/gateway/Gateway.ts:164-172 | The update is merged into the guild with the id; an unknown guild is ignored; ids stay unique |
| Gateway.CreateThenDelete | src/discord/gateway/Gateway.ts:150-163 | Creating then deleting a guild leaves none with that id |
| Gateway.ConnectUrl | src/discord/gateway/Gateway.ts:53-75 | The resume URL when there is a session to resume, else the gateway's |
| Gateway.GatewayClient.constructor | src/discord/gateway/Gateway.ts:47-51 | No guilds, no session, no URL, no socket |
| Gateway.GatewayClient.Connect | src/discord/gateway/Gateway.ts:53-75 | Looks the URL up once (a failed lookup throws, leaving no socket), then opens a socket on the resume or gateway URL |
| Gateway.GatewayClient.OnOpen | src/discord/gateway/Gateway.ts:86-99 | Sends a Resume exactly when there is a session to resume |
| Gateway.GatewayClient.OnHello | src/discord/gateway/Gateway.ts:132-147 | Identifies exactly when there is no session to resume |
| Gateway.GatewayClient.OnClose | src/discord/gateway/Gateway.ts:105-129 | Forgets the current socket, keeps the session to resume only if READY arrived, and reconnects by the close-code rule |
| Gateway.GatewayClient.OnInvalidSession | src/discord/gateway/Gateway.ts:176-182 | A non-resumable session is forgotten before reconnecting; both branches reconnect as Connect does. A failed first lookup fails with no socket; otherwise the new socket is opened on the resume URL of a kept session, else on the gateway URL |
| Gateway.GatewayClient.OnGuildCreate | src/discord/gateway/Gateway.ts:150-157 | The guild list becomes `CreateGuild` of the old one and is emitted |
| Gateway.GatewayClient.OnGuildDelete | src/discord/gateway/Gateway.ts:158-163 | The guild list becomes `DeleteGuild` of the old one and is emitted |
| Gateway.GatewayClient.OnGuildUpdate | src/discord/gateway/Gateway.ts:164-172 | The guild list becomes `UpdateGuild` of the old one and is emitted |
| Gateway.ReplacedSocketDoesNotReconnect | src/discord/gateway/Gateway.ts:53-75 | The code a replaced socket is closed with never triggers a second reconnect |
| LocalBroadcast.RemoveAsWritten | src/main/broadcast/LocalBroadcast.ts:71-76 | As written: an unknown listener changes nothing; a known one truncates the list at its index |
| LocalBroadcast.DisconnectDropsLaterListeners | src/main/broadcast/LocalBroadcast.ts:71-76 | With two listeners, the first disconnecting also removes the second |
| LocalBroadcast.RemoveListener | src/main/broadcast/LocalBroadcast.ts:71-76 | Corrected: exactly one occurrence of the listener leaves; every other listener stays |
| LocalBroadcast.RemoveKeepsOrder | src/main/broadcast/LocalBroadcast.ts:71-76 | The listeners before and after the removed one keep their order |
| LocalBroadcast.RemoveUndoesAdd | src/main/broadcast/LocalBroadcast.ts:67-76 | Removing a listener just added gives back the list |
| LocalBroadcast.FanOut | src/main/broadcast/LocalBroadcast.ts:98-102 | One write per current listener, in list order |
| LocalBroadcast.LocalBroadcaster.constructor | src/main/broadcast/LocalBroadcast.ts:67-69 | No listeners, no writes |
| LocalBroadcast.LocalBroadcaster.Add | src/main/broadcast/LocalBroadcast.ts:67-69 | Appends the listener (the older copy src/main/LocalBroadcast.ts:14-16 alike) |
| LocalBroadcast.LocalBroadcaster.Remove | src/main/broadcast/LocalBroadcast.ts:71-76 | Only the disconnected listener leaves (corrected, for both copies; the older src/main/LocalBroadcast.ts:18-23 has the same `splice(index)`); an unknown one changes nothing |
| LocalBroadcast.LocalBroadcaster.OnData | src/main/broadcast/LocalBroadcast.ts:98-102 | Each chunk is written to every current listener in order (the older copy src/main/LocalBroadcast.ts:45-49 alike) |

## Left out

- Ingress.StartStream: a read error panics inside the goroutine (disgo/webrtc.go:109-111), which ends the whole relay process and every session; the model ends only this track's loop.
- CryptoModes.WritePacketNonce: the caller's packet is assumed to have room for the payload suffix after the payload end; the out-of-range slice panic at severus/src/encrypt.rs:177-182 when it does not is not modelled.
- Session.Relay.Join: the packets `SendAudio` forwards to a ready connection are not modelled, only that the call never returns; a panic is modelled as the handler sending no answer.
- Goroutines, blocking channel sends, `select` fairness and context cancellation timing in the Go hubs: each event the loop takes is one step, and a send is an entry in a log. So:
  - BroadcastServer.Subscribe and BroadcastServer.CancelSubscription on a stopped hub return at once in the model. In disgo/broadcast.go:21-29, Go blocks forever on the unbuffered send to the loop that no longer reads it.
  - A `join` on a connection that is not ready leaves a registered subscription that nobody reads, because `SendAudio` returns without reading. In Go, the next value then blocks the serve loop on that send until the context is cancelled (disgo/broadcast.go:70-78), so no listener gets anything more. The model's Value step completes and logs the send.
- Network and process I/O (HTTP servers and routes, WebSockets, UDP, WebRTC negotiation, FFmpeg, the Discord REST lookup, `postMessage`, `Atomics.wait`): their outcomes are parameters or logs.
- The AEAD ciphers, Opus encoding and songbird/discortp packet buffers: foreign code.
- The Ogg page checksum is written as 0 by the source and is not computed.
- Concurrency between the capture worklet and the sender worker over the shared buffers: each call is one atomic step.
- `floatTo16BitPCM` (floating-point clamping and scaling) is the `convert` parameter of `PcmStream.PcmStreamProcessor.Process`; samples are reals, and the player's volume is a real.
- Rust integer overflow is modelled with release-build wrap-around; a debug build would panic instead.
- Permission masks are natural numbers; parsing their decimal strings with `BigInt` is not part of this model.
- Values of types the TypeScript interfaces do not allow (an `id` of the wrong type, a missing required field) are excluded by `requires` clauses such as `HasStrId`.
- The renderer playback slice's `togglePlay` and the tabs' browser-view calls are window I/O; `SelectTab` returns which views it would hide and show.
- The dispatcher's `setBitrate`, `setPLP`, `setFEC`, volume handling, `totalStreamTime`, the `setTimeout` callback itself and the packet creation are left out; `Step` returns the delay it schedules.
- The preload copy of the PCM stream worklet, the apps, browser views, playlist and soundboard-playback slices, and the React hooks' next/previous rules follow the same patterns and are not part of this model.
- SharedBuffer.SharedBufferProcessor.WriteInput: requires a quantum no longer than the ring and channels of equal length. With write index p, ring length len and a quantum of n frames, the source's second `set` throws a RangeError only when n > 2·len − p. A quantum with len < n ≤ 2·len − p is written without error: its second half overwrites part of its first, and WRITE_INDEX becomes p + n − len, which can be len or more. That case is not modelled.
- SharedBuffer.SharedBufferProcessor.Process: the 32-bit wrap of `FRAMES_AVAILABLE` in the `Int32Array` is not modelled; the count is an unbounded integer.
- StreamSync.StreamSyncWorker.OnSendRequest: the 32-bit wrap of the shared states and the 16-bit truncation of samples are not modelled.
- PcmStream.PcmStreamProcessor.Interleave: requires channels of equal length, as a render quantum always has.
- PcmStream.PcmStreamProcessor.OnMessage: requires that no port message has arrived yet; a second one would replace the ring.
- LocalDispatcher.Dispatcher.Pause: requires a positive clock reading, as `Date.now()` always is.
- PlaylistPlayback.PlaylistPlaybackSlice.Shuffle: requires `current` to be a position of the play order while shuffled, where the source would read `undefined`.
- OggStream.PageRoundTrip: holds for payloads of 1 to 255 bytes other than 2; a 2-byte payload is indistinguishable from a size read (`OggStream.TwoBytePayloadMisread`), and a longer one has its size truncated to a byte.

## Findings

| source | as written | input that shows it | evidently intended | confidence | as-written member | corrected member |
|---|---|---|---|---|---|---|
| src/player/features/playlists/playlistPlaybackSlice.ts:60-65 | `startQueue` stores `current: tracks.indexOf(trackId)` whatever the shuffle flag, but with shuffle on the slice's `shuffle` reducer (:142-144) and the player's `next` read `current` as a position in `shuffled` | shuffle on, tracks `[a, b, c]`, start on `b` with `shuffleArray` giving `[0, 2]`: `shuffled` is `[1, 0, 2]` and `current` is 1, so `a` is taken as playing and turning shuffle off resumes `a` | with shuffle on, `current: 0`, the position where the chosen track was put | high, not executed | PlaylistPlayback.StartQueueShuffledMisreads | PlaylistPlayback.PlaylistStartQueue |
| src/main/broadcast/LocalBroadcast.ts:71-76 | `remove` calls `splice(index)` with no delete count, removing the listener and every listener after it (same in src/main/LocalBroadcast.ts:18-23) | listeners `[a, b]`, `a` disconnects: the list becomes `[]` and `b` gets no more chunks | `splice(index, 1)`: remove only the disconnected listener | high, not executed | LocalBroadcast.DisconnectDropsLaterListeners | LocalBroadcast.RemoveListener |
| severus/src/stream.rs:43-49 | the size read checks `data.len() < PAGE_HEADER_SIZE` (27) but then slices `data[..PAGE_HEADER_SIZE + 1]` (28 bytes) | a 2-byte read with exactly 27 bytes buffered: the slice is out of range and the reader panics | check `data.len() < PAGE_HEADER_SIZE + 1` | high, not executed | OggStream.ReadAsWrittenPanicsOnPartialHeader | OggStream.Read |
