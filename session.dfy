// The encoder adapter's state as a value, and what each of its operations does
// to it. The class in encoder.dfy is proved to move its fields exactly as these
// functions say; the lemmas in allocation.dfy, lifecycle.dfy, ingest.dfy and
// restart.dfy state what they guarantee.
//
// The SVT-HEVC engine and libyuv are outside the model: each call into them is
// replaced by the status it returns, given as a parameter.

module EncoderSpec {
  import opened Opt
  import opened Uint32
  import opened EncoderParams
  import opened BufferPool

  /** Status codes of the SVT-HEVC API that the adapter distinguishes. */
  datatype EbStatus = EbErrorNone | EbNoErrorEmptyQueue | EbErrorMax | EbOtherError

  /** Lifecycle of the engine handle `m_handle`. */
  datatype EngineState = NoHandle | HandleOpen | EncoderRunning

  /** Identity of the downstream frame destination. */
  type SinkRef = nat

  datatype FrameFormat = FormatI420 | FormatH265 | FormatOther(tag: int)

  /** An incoming raw frame: its format and the pixel buffer's `width()`/`height()`. */
  datatype Frame = Frame(format: FrameFormat, width: int, height: int)

  /** A compressed frame handed to the destination. */
  datatype OutFrame = OutFrame(format: FrameFormat, payload: Option<Block>, offset: u32, length: u32,
                               timeStamp: nat, width: u32, height: u32, isKeyFrame: bool)

  /** A picture passed to `EbH265EncSendPicture`: the slot of the header
      passed, its tag, and whether the engine accepted it. */
  datatype Picture = Picture(buffer: Slot, sliceType: SliceType, accepted: bool)

  /** What `EbH265GetPacket` leaves in the output header. */
  datatype Packet = Packet(nFilledLen: u32, nOffset: u32, sliceType: SliceType)

  datatype ConvertPath = CopyPath | ScalePath

  /** How a call of `onFrame` ended (the source returns nothing; the model names
      the branch taken). */
  datatype IngestOutcome =
    | NotReady
    | NoFreeBuffer
    | UnsupportedFormat
    | ConversionFailed(path: ConvertPath)
    | SendFailed(path: ConvertPath)
    | PollFailed(path: ConvertPath)
    | NoPacket(path: ConvertPath)
    | Delivered(path: ConvertPath, frame: OutFrame)

  /** Whether `onFrame` got as far as handing a picture to the engine. */
  predicate Submitted(o: IngestOutcome)
  {
    o.SendFailed? || o.PollFailed? || o.NoPacket? || o.Delivered?
  }

  datatype Session = Session(
    ready: bool,
    dest: Option<SinkRef>,
    engine: EngineState,
    forceIdr: bool,
    frameCount: nat,
    params: EncParams,
    inputPool: seq<InputHeader>,
    inputStorage: Storage,         // where the input pool's headers live
    streamPool: seq<StreamHeader>,
    freeInputBuffers: seq<Slot>,   // FIFO of header slots; front at index 0
    nextAddr: nat,                 // header identities from here on are fresh
    heap: map<Block, Size>,        // blocks allocated and not yet freed
    sent: seq<Picture>,            // every picture submitted to the engine
    delivered: seq<OutFrame>)      // every frame handed to the destination

  /** State right after construction. */
  function Initial(): Session
  {
    Session(false, None, NoHandle, false, 0, ZeroParams(), [], NoStorage, [], [], 0, map[], [], [])
  }

  /** The pools are well formed, use only identities below the fresh mark,
      and account for the heap exactly: every live block belongs to a pool
      entry and every block a pool entry refers to is live. */
  predicate Accounted(s: Session)
  {
    && PoolsWellFormed(s.inputPool, s.streamPool)
    && (forall i :: 0 <= i < |s.inputPool| ==> s.inputPool[i].id < s.nextAddr)
    && (forall j :: 0 <= j < |s.streamPool| ==> s.streamPool[j].id < s.nextAddr)
    && s.heap == PoolHeap(s.inputPool, s.streamPool, s.params.sourceWidth, s.params.sourceHeight)
  }

  /** What a successful `allocateBuffers` sets up: one finished header in each
      pool, the input one at the back of the free queue. */
  predicate BuffersReady(s: Session)
  {
    && s.params.inputOutputBufferFifoInitCount == BufferCount
    && |s.inputPool| == BufferCount as int
    && |s.streamPool| == BufferCount as int
    && InputComplete(s.inputPool[0], s.params.sourceWidth, s.params.sourceHeight)
    && StreamComplete(s.streamPool[0], s.params.sourceWidth, s.params.sourceHeight)
    && |s.freeInputBuffers| > 0
    && s.freeInputBuffers[|s.freeInputBuffers| - 1] == s.inputStorage.base
  }

  /** The input pool's storage: it was only ever sized for `BufferCount`
      headers, the pool fits in it, and every slot in the free queue lies in
      it. */
  predicate SlotsInStorage(s: Session)
  {
    && s.inputStorage.capacity <= BufferCount as nat
    && |s.inputPool| <= s.inputStorage.capacity
    && (forall k :: 0 <= k < |s.freeInputBuffers| ==>
          s.inputStorage.base <= s.freeInputBuffers[k] < s.inputStorage.base + s.inputStorage.capacity)
  }

  /** The session invariant: the heap is accounted for, and the ready flag
      decides whether the engine runs with its buffers set up, or nothing is
      held at all. */
  predicate Inv(s: Session)
  {
    && Accounted(s)
    && SlotsInStorage(s)
    && (s.ready ==> s.engine == EncoderRunning && s.dest.Some? && BuffersReady(s))
    && (!s.ready ==> s.engine == NoHandle && s.dest.None? && s.inputPool == [] && s.streamPool == [])
  }

  /** Successful allocation calls granted to input header `i` out of `budget`. */
  function InputCalls(budget: nat, i: nat): (k: nat)
    ensures k <= 4
  {
    if budget <= 4 * i then 0 else Min(budget - 4 * i, 4)
  }

  function AllocatedInputs(base: Addr, n: nat, budget: nat, w: u32, h: u32): seq<InputHeader>
  {
    seq(n, i requires 0 <= i < n => InputEntry(base + i, InputCalls(budget, i), w, h))
  }

  function AllocatedStreams(base: Addr, n: nat, budget: nat, w: u32, h: u32): seq<StreamHeader>
  {
    seq(n, j requires 0 <= j < n => StreamEntry(base + n + j, if budget > 4 * n + j then 1 else 0, w, h))
  }

  /** The block allocated by the `k`-th call for an input header. */
  function InputPart(k: nat): Part
    requires k < 4
  {
    if k == 0 then HeaderStorage else if k == 1 then LumaPlane else if k == 2 then CbPlane else CrPlane
  }

  /** The input pool of `allocateBuffers` while header `done` has had `k`
      successful allocations: the headers before it are finished, those after
      it still zeroed. */
  function InputPoolAt(base: Addr, n: nat, done: nat, k: nat, w: u32, h: u32): seq<InputHeader>
    requires k <= 4
  {
    seq(n, i requires 0 <= i < n => InputEntry(base + i, if i < done then 4 else if i == done then k else 0, w, h))
  }

  /** The output pool while header `done` is being allocated. */
  function StreamPoolAt(base: Addr, n: nat, done: nat, w: u32, h: u32): seq<StreamHeader>
  {
    seq(n, j requires 0 <= j < n => StreamEntry(base + n + j, if j < done then 1 else 0, w, h))
  }

  /** The `count` consecutive slots from `base` on. */
  function SlotRange(base: Slot, count: nat): (r: seq<Slot>)
    ensures |r| == count
    ensures forall i :: 0 <= i < count ==> r[i] == base + i
  {
    seq(count, i => base + i)
  }

  datatype AllocStep = AllocStep(ok: bool, after: Session)

  /** What `allocateBuffers` leaves, in closed form, when the first `budget`
      allocation calls succeed and the next one fails. With one buffer per
      pool: the input pool's storage is kept if it already holds a header
      (it is only created on the first call); a new input header is made in
      it and gets as many of its four blocks as the budget allows, and its
      slot is queued once it has all four; the output header is only
      created after that, and the call succeeds exactly when all five
      allocations do. The heap gains exactly the blocks the pools refer to. */
  function AllocateResult(s: Session, budget: nat): AllocStep
  {
    var base := s.nextAddr;
    var w, h := s.params.sourceWidth, s.params.sourceHeight;
    var params := s.params.(inputOutputBufferFifoInitCount := BufferCount);
    var storage := Resize(s.inputStorage, BufferCount as nat);
    if budget < 4 then
      var inputs := [InputEntry(base, budget, w, h)];
      AllocStep(false, s.(params := params, inputPool := inputs, inputStorage := storage, nextAddr := base + 1,
                          heap := s.heap + PoolHeap(inputs, s.streamPool, w, h)))
    else
      var inputs := [InputEntry(base, 4, w, h)];
      var streams := [StreamEntry(base + 1, if budget >= 5 then 1 else 0, w, h)];
      AllocStep(budget >= 5, s.(params := params, inputPool := inputs, inputStorage := storage,
                                streamPool := streams, freeInputBuffers := s.freeInputBuffers + [storage.base],
                                nextAddr := base + 2,
                                heap := s.heap + PoolHeap(inputs, streams, w, h)))
  }

  /** A pool `resize`d to `n` headers and `memset` to zero: new header
      instances, with the fresh identities from `base` on. */
  function ZeroedInputs(base: Addr, n: nat, w: u32, h: u32): (pool: seq<InputHeader>)
    ensures |pool| == n
    ensures forall i :: 0 <= i < n ==> pool[i] == InputEntry(base + i, 0, w, h)
  {
    seq(n, i requires 0 <= i < n => InputEntry(base + i, 0, w, h))
  }

  function ZeroedStreams(base: Addr, n: nat, w: u32, h: u32): (pool: seq<StreamHeader>)
    ensures |pool| == n
    ensures forall j :: 0 <= j < n ==> pool[j] == StreamEntry(base + j, 0, w, h)
  {
    seq(n, j requires 0 <= j < n => StreamEntry(base + j, 0, w, h))
  }

  datatype HeaderAlloc = HeaderAlloc(header: InputHeader, heap: map<Block, Size>, ok: bool)

  /** Store the block of an input header's allocation call in its field:
      the header storage in `pBuffer`, a plane in the `EB_H265_ENC_INPUT`. */
  function Attach(e: InputHeader, b: Block): InputHeader
  {
    match b.part
    case HeaderStorage => e.(pBuffer := Some(b))
    case LumaPlane => e.(input := e.input.(luma := Some(b)))
    case CbPlane => e.(input := e.input.(cb := Some(b)))
    case CrPlane => e.(input := e.input.(cr := Some(b)))
    case Bitstream => e
  }

  /** What a header gets once all four calls succeeded: strides, the total
      plane size in `nAllocLen` and `INVALID_SLICE`. */
  function Finish(e: InputHeader, w: u32, h: u32): InputHeader
  {
    var luma8bitSize: nat := LumaSize(w, h);
    var chroma8bitSize: nat := luma8bitSize / 4;
    e.(input := e.input.(yStride := w, crStride := w / 2, cbStride := w / 2),
       nAllocLen := Wrap(luma8bitSize + chroma8bitSize + chroma8bitSize),
       sliceType := InvalidSlice)
  }

  /** One pass of `allocateBuffers`' input loop over header `e`, from its
      `k`-th allocation call on (`calloc` of the `EB_H265_ENC_INPUT`, then
      `malloc` of the luma, cb and cr planes), `budget` of them succeeding:
      the pass stops at the first failing call. */
  function AllocInputHeader(e: InputHeader, w: u32, h: u32, k: nat, budget: nat,
                            heap: map<Block, Size>): (r: HeaderAlloc)
    requires k <= 4
    decreases 4 - k
    ensures r.ok <==> budget >= 4 - k
    ensures r.header.id == e.id
  {
    if k == 4 then HeaderAlloc(Finish(e, w, h), heap, true)
    else if budget == 0 then HeaderAlloc(e, heap, false)
    else
      var b := Block(e.id, InputPart(k));
      AllocInputHeader(Attach(e, b), w, h, k + 1, budget - 1, heap[b := PartSize(b.part, w, h)])
  }

  /** The input pool, the free queue and the heap while the input loop runs. */
  datatype InputPhase = InputPhase(pool: seq<InputHeader>, queue: seq<Slot>, heap: map<Block, Size>)

  datatype InputLoopEnd = InputLoopEnd(ok: bool, phase: InputPhase, remaining: nat)

  /** The input loop of `allocateBuffers` from `bufferIndex` on, with
      `remaining` successful allocation calls left, over a pool whose storage
      starts at slot `slots`: the slot of each finished header is pushed onto
      the free queue; the first failure returns. */
  function InputLoop(w: u32, h: u32, slots: Slot, bufferIndex: nat, remaining: nat, st: InputPhase): InputLoopEnd
    requires bufferIndex <= |st.pool|
    decreases |st.pool| - bufferIndex
  {
    if bufferIndex == |st.pool| then InputLoopEnd(true, st, remaining)
    else
      var hdr := st.pool[bufferIndex];
      var r := AllocInputHeader(hdr, w, h, 0, remaining, st.heap);
      var pool := st.pool[bufferIndex := r.header];
      if !r.ok then InputLoopEnd(false, st.(pool := pool, heap := r.heap), 0)
      else InputLoop(w, h, slots, bufferIndex + 1, remaining - 4, InputPhase(pool, st.queue + [slots + bufferIndex], r.heap))
  }

  datatype StreamLoopEnd = StreamLoopEnd(ok: bool, pool: seq<StreamHeader>, heap: map<Block, Size>)

  /** The output loop of `allocateBuffers` from `bufferIndex` on: one
      `malloc` of `w * h * 3 / 2` bytes per header. */
  function StreamLoop(w: u32, h: u32, bufferIndex: nat, remaining: nat, pool: seq<StreamHeader>,
                      heap: map<Block, Size>): StreamLoopEnd
    requires bufferIndex <= |pool|
    decreases |pool| - bufferIndex
  {
    if bufferIndex == |pool| then StreamLoopEnd(true, pool, heap)
    else if remaining == 0 then StreamLoopEnd(false, pool, heap)
    else
      var outputStreamBufferSize := OutputSize(w, h);
      var b := Block(pool[bufferIndex].id, Bitstream);
      var hdr := pool[bufferIndex].(pBuffer := Some(b), nAllocLen := outputStreamBufferSize,
                                    sliceType := InvalidSlice);
      StreamLoop(w, h, bufferIndex + 1, remaining - 1, pool[bufferIndex := hdr],
                 heap[b := Bytes(outputStreamBufferSize)])
  }

  /** `allocateBuffers` when the first `budget` allocation calls succeed and
      the next one fails: set the FIFO count, size the input pool to it with
      new zeroed headers and run the input loop; only if that
      finished, do the same for the output pool. */
  function AllocateSpec(s: Session, budget: nat): AllocStep
  {
    var ins := AllocateInputsSpec(s, budget);
    if !ins.ok then AllocStep(false, ins.after)
    else AllocateStreamsSpec(ins.after, ins.remaining)
  }

  datatype InputStage = InputStage(ok: bool, after: Session, remaining: nat)

  /** The input half of `allocateBuffers`: one buffer per pool, then
      `resize` the input pool (its storage kept when the headers fit) and run
      the input loop over new zeroed headers. */
  function AllocateInputsSpec(s: Session, budget: nat): InputStage
  {
    var params := s.params.(inputOutputBufferFifoInitCount := 1);
    var n := params.inputOutputBufferFifoInitCount as nat;
    var w, h := params.sourceWidth, params.sourceHeight;
    var storage := Resize(s.inputStorage, n);
    var ins := InputLoop(w, h, storage.base, 0, budget,
                         InputPhase(ZeroedInputs(s.nextAddr, n, w, h), s.freeInputBuffers, s.heap));
    InputStage(ins.ok,
               s.(params := params, inputPool := ins.phase.pool, inputStorage := storage,
                  freeInputBuffers := ins.phase.queue,
                  nextAddr := s.nextAddr + n, heap := ins.phase.heap),
               ins.remaining)
  }

  /** The output half of `allocateBuffers`, with `remaining` successful
      allocation calls left. */
  function AllocateStreamsSpec(s: Session, remaining: nat): AllocStep
  {
    var n := s.params.inputOutputBufferFifoInitCount as nat;
    var w, h := s.params.sourceWidth, s.params.sourceHeight;
    var outs := StreamLoop(w, h, 0, remaining, ZeroedStreams(s.nextAddr, n, w, h), s.heap);
    AllocStep(outs.ok, s.(streamPool := outs.pool, nextAddr := s.nextAddr + n, heap := outs.heap))
  }

  /** `deallocateBuffers`: free every block the pools refer to and empty both
      pools. `resize(0)` keeps the input pool's storage, and the free queue is
      left as it is. */
  function DeallocateSpec(s: Session): Session
  {
    s.(inputPool := [], streamPool := [],
       heap := s.heap - PoolRefs(s.inputPool, s.streamPool))
  }

  datatype GenerateStep = GenerateStep(after: Session, ret: int)

  /** `generateStream` given the engine's answers and the allocation budget. */
  function GenerateSpec(s: Session, width: u32, height: u32, frameRate: u32, bitrateKbps: u32,
                        keyFrameIntervalSeconds: u32, dest: SinkRef, initHandle: EbStatus,
                        setParameter: EbStatus, initEncoder: EbStatus, allocBudget: nat): GenerateStep
  {
    if s.ready then GenerateStep(s, -1)
    else if initHandle != EbErrorNone then GenerateStep(s, -1)
    else
      var configured := s.(engine := HandleOpen,
                           params := Overlay(DefaultParams(), width, height, frameRate,
                                             bitrateKbps, keyFrameIntervalSeconds));
      if setParameter != EbErrorNone || initEncoder != EbErrorNone then
        GenerateStep(configured.(engine := NoHandle), -1)
      else
        StartSpec(configured.(engine := EncoderRunning), dest, allocBudget)
  }

  /** The end of `generateStream` once the engine runs: allocate the buffers;
      on failure free what was allocated and close the engine, on success
      start counting frames for `dest`. */
  function StartSpec(s: Session, dest: SinkRef, allocBudget: nat): GenerateStep
  {
    var alloc := AllocateSpec(s, allocBudget);
    if !alloc.ok then
      GenerateStep(DeallocateSpec(alloc.after).(engine := NoHandle), -1)
    else
      GenerateStep(alloc.after.(frameCount := 0, dest := Some(dest), ready := true), 0)
  }

  /** `degenerateStream` and the destructor: tear down when ready, else nothing. */
  function DegenerateSpec(s: Session): Session
  {
    if s.ready then DeallocateSpec(s).(engine := NoHandle, dest := None, ready := false)
    else s
  }

  function RequestKeyFrameSpec(s: Session): Session
  {
    s.(forceIdr := true)
  }

  /** The branch `convert2BufferHeader` takes: plain copy when the frame already
      has the configured size (compared as `uint32_t`), box-filter scaling otherwise. */
  function ChoosePath(frame: Frame, p: EncParams): ConvertPath
  {
    if Wrap(frame.width) == p.sourceWidth && Wrap(frame.height) == p.sourceHeight
    then CopyPath else ScalePath
  }

  datatype Conversion = Converted(path: ConvertPath) | Unsupported | Failed(path: ConvertPath)

  /** `convert2BufferHeader`: only I420 frames are taken; the chosen libyuv
      call's return code decides whether the conversion succeeded. */
  function Convert(frame: Frame, p: EncParams, copyResult: int, scaleResult: int): Conversion
  {
    if frame.format != FormatI420 then Unsupported
    else
      var path := ChoosePath(frame, p);
      var ret := if path == CopyPath then copyResult else scaleResult;
      if ret != 0 then Failed(path) else Converted(path)
  }

  /** Output timestamp of the `n`-th delivered frame, in 90 kHz units:
      `n * 1000 / frameRate * 90`, dividing before multiplying. */
  function Timestamp(n: nat, frameRate: u32): nat
    requires frameRate > 0
  {
    (n * 1000 / frameRate) * 90
  }

  /** Write the slice tag into the header of the pool (stored from slot
      `base` on) that lives at `slot`, if the pool has one there. */
  function TagBuffer(pool: seq<InputHeader>, base: Slot, slot: Slot, tag: SliceType): seq<InputHeader>
  {
    seq(|pool|, i requires 0 <= i < |pool| => if base + i == slot then pool[i].(sliceType := tag) else pool[i])
  }

  datatype FillStep = FillStep(after: Session, frame: OutFrame)

  /** `fillPacketDone`: wrap the output header into a frame for the destination. */
  function FillPacketDoneSpec(s: Session): FillStep
    requires |s.streamPool| > 0 && s.params.frameRate > 0
  {
    var hdr := s.streamPool[0];
    var out := OutFrame(FormatH265, hdr.pBuffer, hdr.nOffset, hdr.nFilledLen,
                        Timestamp(s.frameCount, s.params.frameRate),
                        s.params.sourceWidth, s.params.sourceHeight,
                        hdr.sliceType == IdrSlice);
    FillStep(s.(frameCount := s.frameCount + 1, delivered := s.delivered + [out]), out)
  }

  datatype IngestStep = IngestStep(after: Session, outcome: IngestOutcome)

  /** Whether a poll with this status hands a packet on: anything but the
      error and the empty queue. */
  predicate PollDelivers(poll: EbStatus)
  {
    poll != EbErrorMax && poll != EbNoErrorEmptyQueue
  }

  /** Precondition of ingesting a frame: when ready, an output header to poll
      into and, if the poll hands a packet on, a frame rate to divide by. */
  predicate CanIngest(s: Session, poll: EbStatus)
  {
    s.ready ==> |s.streamPool| > 0 && (PollDelivers(poll) ==> s.params.frameRate > 0)
  }

  /** The front of the free queue tagged for submission: an IDR request is
      consumed and the picture is handed to the engine. */
  function TagFrontSpec(s: Session, send: EbStatus): Session
    requires |s.freeInputBuffers| > 0
  {
    var front := s.freeInputBuffers[0];
    var tag := if s.forceIdr then IdrSlice else InvalidSlice;
    s.(forceIdr := false,
       inputPool := TagBuffer(s.inputPool, s.inputStorage.base, front, tag),
       sent := s.sent + [Picture(front, tag, send == EbErrorNone)])
  }

  /** Polling the engine once into the output header after a successful send. */
  function PollSpec(s: Session, path: ConvertPath, poll: EbStatus, packet: Packet): IngestStep
    requires |s.streamPool| > 0 && (PollDelivers(poll) ==> s.params.frameRate > 0)
  {
    var polled := s.(streamPool := s.streamPool[0 := s.streamPool[0].(
                       nFilledLen := packet.nFilledLen, nOffset := packet.nOffset,
                       sliceType := packet.sliceType)]);
    if poll == EbErrorMax then IngestStep(polled, PollFailed(path))
    else if poll == EbNoErrorEmptyQueue then IngestStep(polled, NoPacket(path))
    else
      var fill := FillPacketDoneSpec(polled);
      IngestStep(fill.after, Delivered(path, fill.frame))
  }

  /** The end of `onFrame` once the frame is in the header at the front of the
      free queue: tag it, send it, poll once. */
  function SubmitSpec(s: Session, path: ConvertPath, send: EbStatus, poll: EbStatus, packet: Packet): IngestStep
    requires |s.freeInputBuffers| > 0 && |s.streamPool| > 0 && (PollDelivers(poll) ==> s.params.frameRate > 0)
  {
    var tagged := TagFrontSpec(s, send);
    if send != EbErrorNone then IngestStep(tagged, SendFailed(path))
    else PollSpec(tagged, path, poll, packet)
  }

  /** `onFrame`. `copyResult`/`scaleResult` are what libyuv's `I420Copy`/`I420Scale`
      would return, `send` and `poll` the engine's statuses, `packet` what the
      poll leaves in the output header. */
  function OnFrameSpec(s: Session, frame: Frame, copyResult: int, scaleResult: int,
                       send: EbStatus, poll: EbStatus, packet: Packet): IngestStep
    requires CanIngest(s, poll)
  {
    if !s.ready then IngestStep(s, NotReady)
    else if |s.freeInputBuffers| == 0 then IngestStep(s, NoFreeBuffer)
    else
      match Convert(frame, s.params, copyResult, scaleResult)
      case Unsupported => IngestStep(s, UnsupportedFormat)
      case Failed(path) => IngestStep(s, ConversionFailed(path))
      case Converted(path) => SubmitSpec(s, path, send, poll, packet)
  }
}
