# SVT-HEVC encoder adapter

A Dafny model of `SVTHEVCEncoder`, the adapter that lets the media pipeline
encode raw I420 frames to H.265 with the SVT-HEVC engine. The adapter:

- configures the engine when a stream is generated;
- allocates the input picture buffer and the output bitstream buffer the engine works on;
- copies or scales each incoming frame into the input buffer;
- submits the buffer, with a forced IDR when a key frame was requested;
- polls the engine once and hands any packet it gets to the stream's destination, with a 90 kHz timestamp.

The model is a class, `SvtHevc.SvtHevcEncoder`, with the source's fields.

- `State()` reads those fields as a `Session` value (module `EncoderSpec`). Every method is proved to change that value exactly as a function of `EncoderSpec` says.
- Lemmas in `ParamsFacts`, `AllocationFacts`, `LifecycleFacts`, `IngestFacts` and `RestartFacts` state what those functions guarantee.
- The session invariant `Inv` is kept by every public operation. It says:
  - the ghost heap holds exactly the blocks the two pools refer to;
  - the input pool's storage was only ever sized for one header, the pool fits in it, and every slot in the free queue lies in it;
  - a ready encoder has a running engine, a destination, one finished header in each pool, and its input header's slot at the back of the free queue;
  - an idle encoder holds no engine handle, no destination and no buffers.

Calls into the SVT-HEVC engine and into libyuv become parameters: the status each call returns.

Memory is modelled by identity:

- The input pool's headers live in slots of the vector's storage (`Storage`): header `i` at slot `base + i`. The free queue holds slots, as the source's queue holds `&m_inputBufferPool[i]`.
- `resize` keeps that storage while the headers fit, and `resize(0)` keeps it too, so once created it is never replaced: every stream's input header lives in the same slot.
- Each `resize` creates new header instances. Each instance gets a fresh identity from a counter.
- Every block `calloc`/`malloc` returns is named by the identity of the header that owns it and the role it plays.
- `allocBudget` says how many allocation calls succeed before the first failure.

`uint32_t` arithmetic is written out modulo 2^32 (module `Uint32`). This covers the key-frame product, the bit rate, the `<< 16` of the frame rate and the buffer sizes.

Two of the source's behaviours are reproduced as written and proved as properties:

- `onFrame` never pops the free queue.
- `deallocateBuffers` never clears it.

As a result, each stream started appends its input header's slot to the queue again. Because the storage is kept, that is the same slot every time. After a stream is torn down and a new one generated, the queue holds that slot twice. Both entries name the live input header of the new stream, with freshly allocated planes. Frames after the restart are converted into it, tagged in it and sent from it (`RestartFacts`).

## Model

| member | source | states |
|---|---|---|
| SvtHevc.SvtHevcEncoder.constructor | source/core/woogeen_base/SVTHEVCEncoder.cpp:36-46 | A new encoder is idle: no destination, no engine handle, no key-frame request, frame count 0, a zeroed configuration, empty pools and queue, nothing allocated. The invariant holds. |
| SvtHevc.SvtHevcEncoder.Destroy | source/core/woogeen_base/SVTHEVCEncoder.cpp:48-64 | The destructor tears a stream down exactly as `degenerateStream` does and keeps the invariant. |
| SvtHevc.SvtHevcEncoder.InitDefaultParameters | source/core/woogeen_base/SVTHEVCEncoder.cpp:66-176 | The configuration becomes the default table: intra period 255, zero resolution, frame rate, bit rate and buffer count, injector rate `0 << 16`. |
| SvtHevc.SvtHevcEncoder.UpdateParameters | source/core/woogeen_base/SVTHEVCEncoder.cpp:178-191 | The configuration is the old one with the caller's resolution, frame rate, clamped intra period, injector rate and bit rate laid over it. Nothing else changes. |
| EncoderParams.ClampIntraPeriod | source/core/woogeen_base/SVTHEVCEncoder.cpp:185-186 | The intra period lies in [0, 255], never exceeds the key-frame product, and is either that product or 255. |
| Uint32.Wrap | source/core/woogeen_base/SVTHEVCEncoder.cpp:185 | Storing into a `uint32_t` leaves an in-range value alone and otherwise keeps it modulo 2^32. |
| Uint32.ShiftLeft16 | source/core/woogeen_base/SVTHEVCEncoder.cpp:189 | `frameRate << 16` is the low 16 bits of the frame rate times 65536. It is a multiple of 65536, and it is the frame rate times 65536 when no bit is shifted out. |
| Uint32.ShiftDropsHighBits | source/core/woogeen_base/SVTHEVCEncoder.cpp:189 | Multiplying by 65536 modulo 2^32 keeps only the low 16 bits of the operand. |
| ParamsFacts.IntraPeriodFromInterval | source/core/woogeen_base/SVTHEVCEncoder.cpp:185-186 | The intra period is `keyFrameIntervalSeconds * frameRate` below 255, and 255 from there up to 2^32. In general it is the clamp of the product modulo 2^32. |
| ParamsFacts.RatesFromSettings | source/core/woogeen_base/SVTHEVCEncoder.cpp:181-190 | The bit rate is kbps times 1000 modulo 2^32, so exactly kbps times 1000 when that fits. The injector rate is the low 16 bits of the frame rate shifted into the upper 16 bits, so the whole frame rate below 65536 fps. Resolution and frame rate are copied. The buffer count and tuning fields are untouched. |
| ParamsFacts.Overlay1080p30 | source/core/woogeen_base/SVTHEVCEncoder.cpp:178-191 | A 1920x1080 stream at 30 fps, 2000 kbps and a 2 s key-frame interval gets intra period 60, injector rate 1966080 and bit rate 2000000. |
| ParamsFacts.IntraPeriodOverflow | source/core/woogeen_base/SVTHEVCEncoder.cpp:185-186 | A 65536 s interval at 65536 fps wraps the product to 0, so the intra period is 0. |
| SvtHevc.SvtHevcEncoder.CanSimulcast | source/core/woogeen_base/SVTHEVCEncoder.cpp:193-196 | Simulcast is never supported. |
| SvtHevc.SvtHevcEncoder.IsIdle | source/core/woogeen_base/SVTHEVCEncoder.cpp:198-201 | Idle exactly when no stream is ready. An idle encoder holds no engine handle, no buffers and no memory. |
| SvtHevc.SvtHevcEncoder.GenerateStream | source/core/woogeen_base/SVTHEVCEncoder.cpp:203-268 | `generateStream` moves the session as `GenerateSpec` says and keeps the invariant. The new input header lives in the pool's retained storage (see the `LifecycleFacts` and `RestartFacts` rows). |
| SvtHevc.SvtHevcEncoder.OpenEngine | source/core/woogeen_base/SVTHEVCEncoder.cpp:214-239 | The engine runs exactly when `EbH265EncSetParameter` and `EbInitEncoder` both succeed; otherwise its handle is released. The configuration is the defaults with the caller's settings laid over them. |
| SvtHevc.SvtHevcEncoder.StartEncoding | source/core/woogeen_base/SVTHEVCEncoder.cpp:242-267 | After allocation the encoder either frees everything, closes the engine and returns -1, or starts the stream for `dest` and returns 0, as `StartSpec` says. Freeing keeps the input pool's storage and the free queue. |
| LifecycleFacts.GenerateRefusedWhenReady | source/core/woogeen_base/SVTHEVCEncoder.cpp:209-212 | A second stream is refused with -1 and no field changes. |
| LifecycleFacts.GenerateSuccess | source/core/woogeen_base/SVTHEVCEncoder.cpp:203-268 | `generateStream` returns 0 exactly when the encoder was idle and the three engine calls and all five allocations succeed; otherwise it returns -1. On success: ready, destination set, frame count 0, engine running, configuration the caller's overlay with buffer count 1. |
| LifecycleFacts.GenerateStarts | source/core/woogeen_base/SVTHEVCEncoder.cpp:214-239 | When the three engine calls succeed, what remains of `generateStream` is starting the configured, running engine. |
| LifecycleFacts.GenerateFailureReleasesAll | source/core/woogeen_base/SVTHEVCEncoder.cpp:214-248 | Every failure leaves an idle encoder not ready, with no engine handle, no destination, empty pools and nothing allocated. |
| LifecycleFacts.GenerateKeepsInv | source/core/woogeen_base/SVTHEVCEncoder.cpp:203-268 | `generateStream` keeps the session invariant on every outcome. |
| LifecycleFacts.StartBuffers | source/core/woogeen_base/SVTHEVCEncoder.cpp:417-489 | After a successful start there is one finished input header and one finished output header, with the next two fresh identities. The input pool's storage is the old one if it already held a header, otherwise new. The slot of the input header is appended to the free queue. The heap holds exactly the blocks of the two headers. |
| AllocationFacts.BufferLayout | source/core/woogeen_base/SVTHEVCEncoder.cpp:425-486 | While `w*h*3` fits in 32 bits: luma plane `w*h` bytes, chroma planes a quarter of that each, input `nAllocLen` their sum, strides `w` and `w/2`, bitstream buffer `w*h*3/2` bytes, both headers tagged `INVALID_SLICE`. |
| SvtHevc.SvtHevcEncoder.AllocateBuffers | source/core/woogeen_base/SVTHEVCEncoder.cpp:417-490 | `allocateBuffers` leaves the pools, the input pool's storage, the queue, the heap and the result as `AllocateSpec` says. Its closed form is `AllocateClosedForm`. |
| SvtHevc.SvtHevcEncoder.AllocateInputStage | source/core/woogeen_base/SVTHEVCEncoder.cpp:421-469 | The buffer count is set to 1, the input pool is resized in its retained storage and the input loop runs over the zeroed headers. It leaves what `AllocateInputsSpec` says and the allocations left over. |
| SvtHevc.SvtHevcEncoder.AllocateStreamStage | source/core/woogeen_base/SVTHEVCEncoder.cpp:471-489 | The output loop runs over a zeroed pool, leaving what `AllocateStreamsSpec` says. |
| SvtHevc.SvtHevcEncoder.AllocateInputBuffers | source/core/woogeen_base/SVTHEVCEncoder.cpp:428-469 | The input pool's storage is what `resize` leaves: kept when the headers fit, otherwise new. The zeroed headers then end as the input loop `InputLoop` says, and the loop queues the slot `base + i` of each finished header. |
| BufferPool.Resize | source/core/woogeen_base/SVTHEVCEncoder.cpp:428 | `resize(n)` keeps the vector's storage when `n` headers fit in it. Otherwise the new storage holds exactly `n` headers and lies past every slot used so far. |
| SvtHevc.SvtHevcEncoder.AllocateInputHeader | source/core/woogeen_base/SVTHEVCEncoder.cpp:431-466 | One pass of the input loop: the header's four allocations, stopping at the first failure, as `AllocInputHeader` says. |
| SvtHevc.SvtHevcEncoder.AllocateStreamBuffers | source/core/woogeen_base/SVTHEVCEncoder.cpp:474-487 | The resized, zeroed output pool ends as the output loop `StreamLoop` says. |
| AllocationFacts.AllocInputHeaderFrom | source/core/woogeen_base/SVTHEVCEncoder.cpp:433-457 | From its k-th allocation on, a header with `budget` successes left gains min(budget, 4-k) blocks, each with its size. It succeeds exactly when all its remaining calls do. |
| AllocationFacts.InputLoopFrom | source/core/woogeen_base/SVTHEVCEncoder.cpp:430-469 | Closed form of the input loop. The first `budget/4` headers are finished and their slots queued, the next one holds what the budget allowed, and the loop succeeds exactly when every header got all four blocks. |
| AllocationFacts.StreamLoopFrom | source/core/woogeen_base/SVTHEVCEncoder.cpp:476-487 | Closed form of the output loop. Buffers are allocated in order until the budget runs out, and the loop succeeds exactly when all are. |
| AllocationFacts.AllocateClosedForm | source/core/woogeen_base/SVTHEVCEncoder.cpp:417-490 | `allocateBuffers` succeeds exactly when five allocations do. A partially allocated header stays in its pool, and the input header is queued only once it has all four blocks. |
| LifecycleFacts.AllocateAccounts | source/core/woogeen_base/SVTHEVCEncoder.cpp:417-490 | From empty pools, `allocateBuffers` leaves a heap of exactly the pools' blocks, and the queue stays within the input pool's storage. On success there is one finished header per pool, with the input one's slot at the back of the queue. |
| LifecycleFacts.AllocateResultSlots | source/core/woogeen_base/SVTHEVCEncoder.cpp:428 | `resize(1)` creates the input pool's storage on the first allocation and keeps it from then on. A queue that is not empty already lies in that storage. |
| LifecycleFacts.AllocateRollbackNoLeak | source/core/woogeen_base/SVTHEVCEncoder.cpp:242-248 | Freeing after any allocation outcome leaves nothing allocated. |
| LifecycleFacts.DeallocateNoLeak | source/core/woogeen_base/SVTHEVCEncoder.cpp:492-528 | `deallocateBuffers` empties both pools and frees every block they held. |
| SvtHevc.SvtHevcEncoder.DeallocateBuffers | source/core/woogeen_base/SVTHEVCEncoder.cpp:492-528 | Both pools end empty and the heap loses exactly their blocks. The input pool's storage and the free queue are left as they were. |
| SvtHevc.SvtHevcEncoder.ReleaseInputBuffers | source/core/woogeen_base/SVTHEVCEncoder.cpp:496-519 | The input pool ends empty, and the heap loses exactly the blocks its headers referred to. |
| SvtHevc.SvtHevcEncoder.ReleaseInputHeader | source/core/woogeen_base/SVTHEVCEncoder.cpp:497-517 | A header's planes and storage are freed, each only if present. The header keeps its identity and refers to nothing. |
| SvtHevc.SvtHevcEncoder.ReleaseStreamBuffers | source/core/woogeen_base/SVTHEVCEncoder.cpp:521-527 | The output pool ends empty, and the heap loses exactly its bitstream buffers. |
| SvtHevc.SvtHevcEncoder.CloseEngine | source/core/woogeen_base/SVTHEVCEncoder.cpp:274-277 | The buffers are freed as `deallocateBuffers` does and the engine handle is released. |
| SvtHevc.SvtHevcEncoder.DegenerateStream | source/core/woogeen_base/SVTHEVCEncoder.cpp:270-288 | `degenerateStream` moves the session as `DegenerateSpec` says (a no-op when idle) and keeps the invariant. |
| LifecycleFacts.DegenerateReleasesAll | source/core/woogeen_base/SVTHEVCEncoder.cpp:270-288 | After teardown the encoder is not ready, with no engine handle, no destination and nothing allocated. The input pool's storage, the free queue and the identity supply are untouched, and the invariant holds. |
| LifecycleFacts.ReadyQueueNamesLiveHeader | source/core/woogeen_base/SVTHEVCEncoder.cpp:428-468 | While a stream runs, the input pool's storage holds exactly one header, and every slot in the free queue is that header's slot. |
| LifecycleFacts.DegenerateIdempotent | source/core/woogeen_base/SVTHEVCEncoder.cpp:270-288 | Tearing down twice is the same as tearing down once. |
| SvtHevc.SvtHevcEncoder.RequestKeyFrame | source/core/woogeen_base/SVTHEVCEncoder.cpp:295-300 | Only the key-frame request flag is set, and the invariant is kept. |
| SvtHevc.SvtHevcEncoder.Convert2BufferHeader | source/core/woogeen_base/SVTHEVCEncoder.cpp:349-415 | The conversion outcome is `Convert`'s, whose meaning `ConvertChoosesCall` states. |
| IngestFacts.ConvertChoosesCall | source/core/woogeen_base/SVTHEVCEncoder.cpp:353-411 | Only I420 frames are accepted. For in-range sizes, the copy is chosen exactly when the frame matches the configured resolution, and the scale otherwise. Conversion succeeds exactly when the chosen libyuv call returns 0. |
| SvtHevc.SvtHevcEncoder.OnFrame | source/core/woogeen_base/SVTHEVCEncoder.cpp:302-347 | `onFrame` moves the session as `OnFrameSpec` says, names the branch it took, and keeps the invariant. |
| SvtHevc.SvtHevcEncoder.SubmitPicture | source/core/woogeen_base/SVTHEVCEncoder.cpp:322-344 | The converted buffer is tagged and sent. If the send succeeds, the engine is polled once, as `SubmitSpec` says. |
| SvtHevc.SvtHevcEncoder.TagFront | source/core/woogeen_base/SVTHEVCEncoder.cpp:317-330 | The header in the slot at the queue's front is tagged IDR if a key frame was requested, else `INVALID_SLICE`. The request is cleared and the picture is recorded as sent, as `TagFrontSpec` says. |
| SvtHevc.SvtHevcEncoder.PollPacket | source/core/woogeen_base/SVTHEVCEncoder.cpp:336-344 | One poll into the output header, delivering a packet unless the status is `EB_ErrorMax` or `EB_NoErrorEmptyQueue`, as `PollSpec` says. |
| SvtHevc.SvtHevcEncoder.FillPacketDone | source/core/woogeen_base/SVTHEVCEncoder.cpp:530-565 | The output header becomes an H.265 frame for the destination, and the frame count advances, as `FillPacketDoneSpec` says. |
| IngestFacts.OnFrameDropLeavesState | source/core/woogeen_base/SVTHEVCEncoder.cpp:308-320 | A frame dropped before submission (not ready, empty queue, unsupported format, failed conversion) changes nothing. |
| IngestFacts.OnFrameSubmits | source/core/woogeen_base/SVTHEVCEncoder.cpp:313-346 | A picture is submitted exactly when the encoder is ready, the queue is non-empty and conversion succeeds. It is the queue's front with the right tag, and the key-frame request is consumed even if the send fails. The queue is never popped. |
| IngestFacts.OnFrameDelivers | source/core/woogeen_base/SVTHEVCEncoder.cpp:338-344 | A frame is delivered exactly when the send succeeds and the poll status is neither `EB_ErrorMax` nor `EB_NoErrorEmptyQueue`. It carries the packet's payload, offset and length, timestamp `Timestamp(n, frameRate)`, the configured resolution, and a key-frame flag exactly when the slice is IDR. The frame count grows by exactly one per delivery. |
| IngestFacts.KeyFrameRequestHonoured | source/core/woogeen_base/SVTHEVCEncoder.cpp:322-327 | After `requestKeyFrame`, the next submitted picture is tagged IDR and the request is cleared. If nothing is submitted, the request stays. |
| IngestFacts.TagBufferKeeps | source/core/woogeen_base/SVTHEVCEncoder.cpp:322-327 | Tagging changes only the slice type of headers, and no block they refer to. |
| IngestFacts.TagBufferTags | source/core/woogeen_base/SVTHEVCEncoder.cpp:322-327 | The header living at the tagged slot carries the new slice type, and every other header keeps its own. |
| IngestFacts.OnFrameTagsLiveHeader | source/core/woogeen_base/SVTHEVCEncoder.cpp:317-330 | A submitted picture is the live input header: the slot sent is where that header lives, and the header carries the picture's tag with its blocks unchanged. |
| IngestFacts.OnFrameKeepsInv | source/core/woogeen_base/SVTHEVCEncoder.cpp:302-347 | `onFrame` keeps the session invariant on every branch. |
| IngestFacts.TimestampWithinOneMillisecond | source/core/woogeen_base/SVTHEVCEncoder.cpp:552 | The n-th timestamp is the frame's exact 90 kHz time `n*90000/frameRate`, rounded down to a whole millisecond. |
| IngestFacts.TimestampMonotone | source/core/woogeen_base/SVTHEVCEncoder.cpp:552 | Timestamps never decrease as the frame count grows. |
| IngestFacts.TimestampAt30Fps | source/core/woogeen_base/SVTHEVCEncoder.cpp:552 | At 30 fps the 30th frame is stamped 90000, and the first after the start 2970 rather than 3000. |
| RestartFacts.StartFromIdle | source/core/woogeen_base/SVTHEVCEncoder.cpp:203-268 | From an idle, empty encoder, with all engine calls and the five allocations succeeding, the stream starts with a new input header in the pool's storage (created only if there was none) and a new output header. The input header's slot is appended to the queue. |
| RestartFacts.FirstStreamTornDown | source/core/woogeen_base/SVTHEVCEncoder.cpp:270-288 | Generating and then tearing down a stream from an empty queue leaves the encoder idle and empty. The pool keeps storage for one header, and the queue still holds that header's slot. |
| RestartFacts.SecondStreamReusesSlot | source/core/woogeen_base/SVTHEVCEncoder.cpp:428-468 | On the next stream the storage is kept. The new input header is built in the same slot with newly allocated blocks, and that slot is pushed again, so the queue holds it twice. |
| RestartFacts.RestartQueuesSlotTwice | source/core/woogeen_base/SVTHEVCEncoder.cpp:492-528 | After generate, degenerate, generate, both starts succeed, the storage is the first stream's, and the queue is `[p, p]`, where `p` is the slot of the live second input header. |
| RestartFacts.RestartKeepsInv | source/core/woogeen_base/SVTHEVCEncoder.cpp:203-288 | Generate, degenerate, generate keeps the session invariant. |
| RestartFacts.FrameIntoLiveHeader | source/core/woogeen_base/SVTHEVCEncoder.cpp:313-346 | With the live header's slot queued twice, a converted frame is tagged in that header and sent from its slot, and the queue is unchanged. |
| RestartFacts.RestartFramesUseLiveHeader | source/core/woogeen_base/SVTHEVCEncoder.cpp:313-346 | After a restart, a converted frame is tagged in the second stream's live input header and sent from its slot, and the queue stays `[p, p]`. |
| RestartFacts.LiveHeaderAllocated | source/core/woogeen_base/SVTHEVCEncoder.cpp:433-437 | A started stream's heap holds the header storage of its input header. |

## Left out

- SVT-HEVC engine internals (`EbInitHandle`, `EbH265EncSetParameter`, `EbInitEncoder`, `EbH265EncSendPicture`, `EbH265GetPacket`, and the deinit calls): a foreign library. Each call is the status it returns, given as a parameter.
  - A poll is the `Packet` it leaves in the output header.
  - `EbInitHandle`'s own writes to the configuration record are not modelled; `initDefaultParameters` overwrites the fields modelled here.
- libyuv `I420Copy`/`I420Scale`: pixel contents and filtering are foreign numeric kernels. Only the return code and which call is made are modelled; frames carry only their format and size.
- The constant table of `initDefaultParameters` (source/core/woogeen_base/SVTHEVCEncoder.cpp:66-176): the roughly 45 tuning fields that only receive constants are summarised as one `Tuning` value.
- Bitstream dumping (`m_enableBsDump`, `m_bsDumpfp`, `dump`, `fopen`/`fwrite`/`fclose`): file I/O. Dumping is switched off in the constructor.
- All logging.
- `setBitrate` (source/core/woogeen_base/SVTHEVCEncoder.cpp:290-293): it only logs and changes no state.
- Real pointers: `calloc`/`malloc`/`free`, `memset`, `vector::resize` storage and `pBuffer + nOffset` arithmetic are modelled by block identities and a ghost heap of sizes.
  - The vectors' own storage is not in the ghost heap. For the input pool only its slots are modelled, which is what the free queue points into.
  - The output pool's storage is not modelled, because `onFrame` takes `&m_streamBufferPool[0]` afresh on every call and nothing keeps a pointer into it.
  - `Malloc` takes the allocator's answer as a parameter. It does not check that the block is new; the model's fresh identities make every block new.
- Header fields the adapter sets but never reads back (`nSize`, `pAppPrivate`), and the packet fields it only logs (`nTickCount`, `dts`, `pts`, `nFlags`, `qpValue`).
- Threading: the adapter has no locks and is modelled as sequential.
- SvtHevc.SvtHevcEncoder.FillPacketDone: `m_frameCount` and the timestamp are unbounded integers, because the type of `m_frameCount` is declared in a header that is not part of this model.
- SvtHevc.SvtHevcEncoder.OnFrame: requires a positive frame rate while a stream runs, but only when the poll's status would hand a packet on (`CanIngest`), because `fillPacketDone` divides by it. Delivering at a zero frame rate is undefined behaviour in the source and is not modelled. The same holds for `SubmitPicture`, `PollPacket` and the `IngestFacts` lemmas.
- Uint32.Mul: has no contract of its own. Its meaning, the exact product when it fits in 32 bits, is the lemma `Uint32.MulExact`.
