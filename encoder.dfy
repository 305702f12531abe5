// The `SVTHEVCEncoder` class: the adapter between the media pipeline and the
// SVT-HEVC engine. Its fields are the source's; `State()` reads them as a
// `Session` value, and every method is proved to change that value exactly as
// the corresponding function of `EncoderSpec` says.

module SvtHevc {
  import opened Opt
  import opened Uint32
  import opened EncoderParams
  import opened BufferPool
  import opened BufferPoolFacts
  import opened EncoderSpec
  import opened AllocationFacts
  import opened LifecycleFacts
  import opened IngestFacts

  class SvtHevcEncoder {
    var ready: bool
    var dest: Option<SinkRef>
    var engine: EngineState
    var forceIdr: bool
    var frameCount: nat
    var encParameters: EncParams
    var inputBufferPool: seq<InputHeader>
    /** Where `m_inputBufferPool`'s headers live: `resize` keeps this storage
        while the headers fit in it. */
    var inputStorage: Storage
    var streamBufferPool: seq<StreamHeader>
    /** Slots of the headers in `m_freeInputBuffers`, front first. */
    var freeInputBuffers: seq<Slot>
    /** Source of fresh header identities, which name the blocks allocated
        for each header. */
    var nextAddr: nat
    ghost var heap: map<Block, Size>
    ghost var sent: seq<Picture>
    ghost var delivered: seq<OutFrame>

    ghost function State(): Session
      reads this
    {
      Session(ready, dest, engine, forceIdr, frameCount, encParameters, inputBufferPool, inputStorage,
              streamBufferPool, freeInputBuffers, nextAddr, heap, sent, delivered)
    }

    ghost predicate Valid()
      reads this
    {
      Inv(State())
    }

    constructor ()
      ensures Valid() && State() == Initial()
    {
      ready, dest, engine, forceIdr, frameCount := false, None, NoHandle, false, 0;
      encParameters := ZeroParams();
      inputBufferPool, streamBufferPool, freeInputBuffers := [], [], [];
      inputStorage := NoStorage;
      nextAddr := 0;
      heap, sent, delivered := map[], [], [];
    }

    /** `malloc`/`calloc` of block `b`; `succeeds` is the allocator's answer. */
    method Malloc(b: Block, size: Size, succeeds: bool) returns (p: Option<Block>)
      modifies this`heap
      ensures p == (if succeeds then Some(b) else None)
      ensures heap == if succeeds then old(heap)[b := size] else old(heap)
    {
      if succeeds {
        p := Some(b);
        heap := heap[b := size];
      } else {
        p := None;
      }
    }

    /** `free`: only a live block may be released. */
    method Free(b: Block)
      requires b in heap
      modifies this`heap
      ensures heap == old(heap) - {b}
    {
      heap := heap - {b};
    }

    method InitDefaultParameters()
      modifies this`encParameters
      ensures encParameters == DefaultParams()
    {
      encParameters := DefaultParams();
    }

    method UpdateParameters(width: u32, height: u32, frameRate: u32, bitrateKbps: u32,
                            keyFrameIntervalSeconds: u32)
      modifies this`encParameters
      ensures encParameters == Overlay(old(encParameters), width, height, frameRate,
                                       bitrateKbps, keyFrameIntervalSeconds)
    {
      encParameters := encParameters.(sourceWidth := width, sourceHeight := height);
      var intraPeriodLength := Mul(keyFrameIntervalSeconds, frameRate);
      encParameters := encParameters.(
        intraPeriodLength := if intraPeriodLength < 255 then intraPeriodLength else 255);
      encParameters := encParameters.(frameRate := frameRate);
      encParameters := encParameters.(injectorFrameRate := ShiftLeft16(frameRate));
      encParameters := encParameters.(targetBitRate := Mul(bitrateKbps, 1000));
    }

    method CanSimulcast(format: FrameFormat, width: u32, height: u32) returns (r: bool)
      ensures !r
    {
      r := false;
    }

    /** Idle means no stream: the engine is closed and nothing is allocated. */
    method IsIdle() returns (idle: bool)
      requires Valid()
      ensures idle <==> !ready
      ensures idle ==> engine == NoHandle && heap == map[] && inputBufferPool == [] && streamBufferPool == []
    {
      idle := !ready;
      if idle {
        EmptyPoolsHeap(encParameters.sourceWidth, encParameters.sourceHeight);
      }
    }

    /** The body of `deallocateBuffers`' first loop for one header: free its
        planes and header storage, if it has any. */
    method ReleaseInputHeader(e: InputHeader) returns (released: InputHeader)
      requires InputWellFormed(e) && InputRefs(e) <= heap.Keys
      modifies this`heap
      ensures heap == old(heap) - InputRefs(e)
      ensures InputRefs(released) == {} && released.id == e.id
    {
      released := e;
      if e.pBuffer.Some? {
        var input := e.input;
        if input.luma.Some? {
          Free(input.luma.value);
          input := input.(luma := None);
        }
        if input.cb.Some? {
          Free(input.cb.value);
          input := input.(cb := None);
        }
        if input.cr.Some? {
          Free(input.cr.value);
          input := input.(cr := None);
        }
        Free(e.pBuffer.value);
        released := e.(pBuffer := None, input := input);
      }
    }

    /** The body of `allocateBuffers`' input loop for the zeroed header `e0`:
        header storage, then the luma, cb and cr planes, stopping at the first
        failing call. `budget` is how many of these calls succeed. */
    method AllocateInputHeader(e0: InputHeader, w: u32, h: u32, budget: nat) returns (e: InputHeader, ok: bool)
      modifies this`heap
      ensures HeaderAlloc(e, heap, ok) == AllocInputHeader(e0, w, h, 0, budget, old(heap))
    {
      var a := e0.id;
      var luma8bitSize: nat := LumaSize(w, h);   // size_t
      var chroma8bitSize: nat := luma8bitSize / 4;
      e := e0;
      var pBuffer := Malloc(Block(a, HeaderStorage), SizeOfEncInput, 0 < budget);
      if pBuffer.None? {
        return e, false;
      }
      e := e.(pBuffer := pBuffer);
      assert AllocInputHeader(e0, w, h, 0, budget, old(heap)) == AllocInputHeader(e, w, h, 1, budget - 1, heap);

      var input := e.input;
      var luma := Malloc(Block(a, LumaPlane), Bytes(luma8bitSize), 1 < budget);
      if luma.None? {
        return e, false;
      }
      input := input.(luma := luma);
      ghost var e1 := e;
      e := e.(input := input);
      assert AllocInputHeader(e1, w, h, 1, budget - 1, old(heap)[Block(a, HeaderStorage) := SizeOfEncInput])
          == AllocInputHeader(e, w, h, 2, budget - 2, heap);

      var cb := Malloc(Block(a, CbPlane), Bytes(chroma8bitSize), 2 < budget);
      if cb.None? {
        return e, false;
      }
      input := input.(cb := cb);
      e := e.(input := input);

      var cr := Malloc(Block(a, CrPlane), Bytes(chroma8bitSize), 3 < budget);
      if cr.None? {
        return e, false;
      }
      input := input.(cr := cr);

      input := input.(yStride := w, crStride := w / 2, cbStride := w / 2);
      e := e.(input := input, nAllocLen := Wrap(luma8bitSize + chroma8bitSize + chroma8bitSize),
              sliceType := InvalidSlice);
      ok := true;
    }

    /** The input half of `allocateBuffers`: `resize` the input pool to
        `count` new zeroed headers, keeping its storage when they fit, and
        allocate each in turn, queueing the slot of every finished one.
        `allocBudget` is how many allocation calls succeed; `remaining` is how
        many are left afterwards. */
    method AllocateInputBuffers(w: u32, h: u32, count: nat, allocBudget: nat) returns (ok: bool, remaining: nat)
      modifies this`inputBufferPool, this`inputStorage, this`freeInputBuffers, this`nextAddr, this`heap
      ensures inputStorage == Resize(old(inputStorage), count)
      ensures InputLoopEnd(ok, InputPhase(inputBufferPool, freeInputBuffers, heap), remaining)
           == InputLoop(w, h, inputStorage.base, 0, allocBudget,
                        InputPhase(ZeroedInputs(old(nextAddr), count, w, h), old(freeInputBuffers), old(heap)))
      ensures nextAddr == old(nextAddr) + count
    {
      var base := nextAddr;
      inputStorage := Resize(inputStorage, count);
      inputBufferPool := ZeroedInputs(base, count, w, h);
      nextAddr := base + count;
      ghost var start := InputPhase(inputBufferPool, freeInputBuffers, heap);
      remaining := allocBudget;
      for bufferIndex := 0 to count
        invariant |inputBufferPool| == count
        invariant InputLoop(w, h, inputStorage.base, bufferIndex, remaining,
                            InputPhase(inputBufferPool, freeInputBuffers, heap))
               == InputLoop(w, h, inputStorage.base, 0, allocBudget, start)
        modifies this`inputBufferPool, this`freeInputBuffers, this`heap
      {
        ghost var before := InputPhase(inputBufferPool, freeInputBuffers, heap);
        var header := inputBufferPool[bufferIndex];
        var e, complete := AllocateInputHeader(header, w, h, remaining);
        InputLoopNext(w, h, inputStorage.base, bufferIndex, remaining, before, e, heap, complete);
        inputBufferPool := inputBufferPool[bufferIndex := e];
        if !complete {
          return false, 0;
        }
        remaining := remaining - 4;
        freeInputBuffers := freeInputBuffers + [inputStorage.base + bufferIndex];   // &m_inputBufferPool[bufferIndex]
      }
      ok := true;
    }

    /** The output half of `allocateBuffers`: size the output pool to `count`
        zeroed headers and give each its bitstream buffer. */
    method AllocateStreamBuffers(w: u32, h: u32, count: nat, remaining: nat) returns (ok: bool)
      modifies this`streamBufferPool, this`nextAddr, this`heap
      ensures StreamLoopEnd(ok, streamBufferPool, heap)
           == StreamLoop(w, h, 0, remaining, ZeroedStreams(old(nextAddr), count, w, h), old(heap))
      ensures nextAddr == old(nextAddr) + count
    {
      var base := nextAddr;
      var outputStreamBufferSize := OutputSize(w, h);
      streamBufferPool := ZeroedStreams(base, count, w, h);
      nextAddr := base + count;
      var left := remaining;
      for bufferIndex := 0 to count
        invariant |streamBufferPool| == count
        invariant StreamLoop(w, h, bufferIndex, left, streamBufferPool, heap)
               == StreamLoop(w, h, 0, remaining, ZeroedStreams(base, count, w, h), old(heap))
        modifies this`streamBufferPool, this`heap
      {
        var b := Block(streamBufferPool[bufferIndex].id, Bitstream);
        var pBuffer := Malloc(b, Bytes(outputStreamBufferSize), 0 < left);
        if pBuffer.None? {
          return false;
        }
        left := left - 1;
        streamBufferPool := streamBufferPool[bufferIndex := streamBufferPool[bufferIndex].(
          pBuffer := pBuffer, nAllocLen := outputStreamBufferSize, sliceType := InvalidSlice)];
      }
      ok := true;
    }

    /** `allocateBuffers`. The first `allocBudget` calls of `calloc`/`malloc`
        succeed and the next one fails; a failure returns at once, leaving what
        was allocated so far in the pools for `deallocateBuffers` to release. */
    method AllocateBuffers(allocBudget: nat) returns (ok: bool)
      modifies this`encParameters, this`inputBufferPool, this`inputStorage, this`streamBufferPool,
               this`freeInputBuffers, this`nextAddr, this`heap
      ensures AllocStep(ok, State()) == AllocateSpec(old(State()), allocBudget)
    {
      var remaining;
      ok, remaining := AllocateInputStage(allocBudget);
      if !ok {
        return;
      }
      ok := AllocateStreamStage(remaining);
    }

    /** Size both pools to one buffer and run the input loop. */
    method AllocateInputStage(allocBudget: nat) returns (ok: bool, remaining: nat)
      modifies this`encParameters, this`inputBufferPool, this`inputStorage, this`freeInputBuffers,
               this`nextAddr, this`heap
      ensures InputStage(ok, State(), remaining) == AllocateInputsSpec(old(State()), allocBudget)
    {
      encParameters := encParameters.(inputOutputBufferFifoInitCount := 1);   // one buffer
      var w, h := encParameters.sourceWidth, encParameters.sourceHeight;
      var count := encParameters.inputOutputBufferFifoInitCount as nat;
      ok, remaining := AllocateInputBuffers(w, h, count, allocBudget);
    }

    /** Run the output loop with `remaining` successful calls left. */
    method AllocateStreamStage(remaining: nat) returns (ok: bool)
      modifies this`streamBufferPool, this`nextAddr, this`heap
      ensures AllocStep(ok, State()) == AllocateStreamsSpec(old(State()), remaining)
    {
      var w, h := encParameters.sourceWidth, encParameters.sourceHeight;
      var count := encParameters.inputOutputBufferFifoInitCount as nat;
      ok := AllocateStreamBuffers(w, h, count, remaining);
    }

    /** `deallocateBuffers`' first loop: release every input header, then
        clear the input pool. */
    method ReleaseInputBuffers()
      requires forall k :: 0 <= k < |inputBufferPool| ==> InputWellFormed(inputBufferPool[k])
      requires forall k, l :: 0 <= k < l < |inputBufferPool| ==> inputBufferPool[k].id != inputBufferPool[l].id
      requires InputPoolRefs(inputBufferPool) <= heap.Keys
      modifies this`inputBufferPool, this`heap
      ensures inputBufferPool == []
      ensures heap == old(heap) - InputPoolRefs(old(inputBufferPool))
    {
      ghost var inputs0 := inputBufferPool;
      for i := 0 to |inputBufferPool|
        invariant |inputBufferPool| == |inputs0|
        invariant forall j :: i <= j < |inputs0| ==> inputBufferPool[j] == inputs0[j]
        invariant heap == old(heap) - InputPoolRefs(inputs0[..i])
        modifies this`inputBufferPool, this`heap
      {
        InputPrefixDisjoint(inputs0, i);
        InputPrefixRefs(inputs0, i);
        ghost var before := heap;
        var released := ReleaseInputHeader(inputBufferPool[i]);
        inputBufferPool := inputBufferPool[i := released];
        assert heap == before - InputRefs(inputs0[i]);
      }
      assert inputs0[..|inputs0|] == inputs0;
      inputBufferPool := [];
    }

    /** `deallocateBuffers`' second loop: free every bitstream buffer, then
        clear the output pool. */
    method ReleaseStreamBuffers()
      requires forall k :: 0 <= k < |streamBufferPool| ==> StreamWellFormed(streamBufferPool[k])
      requires forall k, l :: 0 <= k < l < |streamBufferPool| ==> streamBufferPool[k].id != streamBufferPool[l].id
      requires StreamPoolRefs(streamBufferPool) <= heap.Keys
      modifies this`streamBufferPool, this`heap
      ensures streamBufferPool == []
      ensures heap == old(heap) - StreamPoolRefs(old(streamBufferPool))
    {
      ghost var streams0 := streamBufferPool;
      for j := 0 to |streamBufferPool|
        invariant |streamBufferPool| == |streams0|
        invariant forall k :: j <= k < |streams0| ==> streamBufferPool[k] == streams0[k]
        invariant heap == old(heap) - StreamPoolRefs(streams0[..j])
        modifies this`streamBufferPool, this`heap
      {
        var e := streamBufferPool[j];
        StreamPrefixDisjoint(streams0, j);
        StreamPrefixRefs(streams0, j);
        if e.pBuffer.Some? {
          Free(e.pBuffer.value);
          streamBufferPool := streamBufferPool[j := e.(pBuffer := None)];
        }
      }
      assert streams0[..|streams0|] == streams0;
      streamBufferPool := [];
    }

    method DeallocateBuffers()
      requires PoolsWellFormed(inputBufferPool, streamBufferPool)
      requires PoolRefs(inputBufferPool, streamBufferPool) <= heap.Keys
      modifies this`inputBufferPool, this`streamBufferPool, this`heap
      ensures State() == DeallocateSpec(old(State()))
    {
      ghost var streams0 := streamBufferPool;
      PoolRefsSplit(inputBufferPool, streamBufferPool);
      ReleaseInputBuffers();
      ReleaseStreamBuffers();
      assert heap == old(heap) - PoolRefs(old(inputBufferPool), streams0);
    }

    /** `generateStream`. `initHandle`, `setParameter` and `initEncoder` are
        what `EbInitHandle`, `EbH265EncSetParameter` and `EbInitEncoder`
        return; `allocBudget` is how many allocation calls succeed. */
    method GenerateStream(width: u32, height: u32, frameRate: u32, bitrateKbps: u32,
                          keyFrameIntervalSeconds: u32, dest: SinkRef, initHandle: EbStatus,
                          setParameter: EbStatus, initEncoder: EbStatus, allocBudget: nat)
      returns (ret: int)
      requires Valid()
      modifies this
      ensures GenerateStep(State(), ret)
           == GenerateSpec(old(State()), width, height, frameRate, bitrateKbps, keyFrameIntervalSeconds,
                           dest, initHandle, setParameter, initEncoder, allocBudget)
      ensures Valid()
    {
      ghost var s0 := State();
      GenerateKeepsInv(s0, width, height, frameRate, bitrateKbps, keyFrameIntervalSeconds,
                       dest, initHandle, setParameter, initEncoder, allocBudget);
      if ready {
        return -1;
      }
      if initHandle != EbErrorNone {
        return -1;
      }
      var running := OpenEngine(width, height, frameRate, bitrateKbps, keyFrameIntervalSeconds,
                                setParameter, initEncoder);
      if !running {
        return -1;
      }
      IdleConfigured(s0, encParameters);
      ret := StartEncoding(dest, allocBudget);
    }

    /** The middle of `generateStream` once the handle is open: configure the
        engine and start it, closing the handle again if either call fails. */
    method OpenEngine(width: u32, height: u32, frameRate: u32, bitrateKbps: u32,
                      keyFrameIntervalSeconds: u32, setParameter: EbStatus, initEncoder: EbStatus)
      returns (running: bool)
      modifies this`engine, this`encParameters
      ensures running <==> setParameter == EbErrorNone && initEncoder == EbErrorNone
      ensures engine == if running then EncoderRunning else NoHandle
      ensures encParameters == Overlay(DefaultParams(), width, height, frameRate, bitrateKbps, keyFrameIntervalSeconds)
    {
      engine := HandleOpen;
      InitDefaultParameters();
      UpdateParameters(width, height, frameRate, bitrateKbps, keyFrameIntervalSeconds);
      if setParameter != EbErrorNone {
        engine := NoHandle;   // EbDeinitHandle
        return false;
      }
      if initEncoder != EbErrorNone {
        engine := NoHandle;   // EbDeinitHandle
        return false;
      }
      engine := EncoderRunning;
      running := true;
    }

    /** The end of `generateStream` once the engine runs. */
    method StartEncoding(dest: SinkRef, allocBudget: nat) returns (ret: int)
      requires Configured(State())
      modifies this
      ensures GenerateStep(State(), ret) == StartSpec(old(State()), dest, allocBudget)
    {
      ghost var configured := State();
      var ok := AllocateBuffers(allocBudget);
      if !ok {
        AllocateAccounts(configured, allocBudget);
        CloseEngine();
        return -1;
      }
      frameCount := 0;
      this.dest := Some(dest);
      ready := true;
      ret := 0;
    }

    /** `degenerateStream`: close the engine and free the buffers, if a
        stream is running. */
    method DegenerateStream(streamId: int)
      requires Valid()
      modifies this`engine, this`inputBufferPool, this`streamBufferPool, this`heap, this`dest, this`ready
      ensures State() == DegenerateSpec(old(State()))
      ensures Valid()
    {
      ghost var s0 := State();
      if ready {
        CloseEngine();
        dest := None;
        ready := false;
      }
      DegenerateReleasesAll(s0);
    }

    /** Free the buffers and close the engine: `deallocateBuffers`,
        `EbDeinitEncoder`, `EbDeinitHandle`. */
    method CloseEngine()
      requires Accounted(State())
      modifies this`engine, this`inputBufferPool, this`streamBufferPool, this`heap
      ensures State() == DeallocateSpec(old(State())).(engine := NoHandle)
    {
      PoolHeapKeys(inputBufferPool, streamBufferPool, encParameters.sourceWidth, encParameters.sourceHeight);
      DeallocateBuffers();
      engine := NoHandle;
    }

    /** The destructor does what `degenerateStream` does. */
    method Destroy()
      requires Valid()
      modifies this`engine, this`inputBufferPool, this`streamBufferPool, this`heap, this`dest, this`ready
      ensures State() == DegenerateSpec(old(State()))
      ensures Valid()
    {
      DegenerateStream(0);
    }

    method RequestKeyFrame(streamId: int)
      requires Valid()
      modifies this`forceIdr
      ensures State() == RequestKeyFrameSpec(old(State()))
      ensures Valid()
    {
      forceIdr := true;
    }

    /** `convert2BufferHeader`: the pixels themselves are not modelled, only
        which libyuv call is made and whether it succeeded. */
    method Convert2BufferHeader(frame: Frame, copyResult: int, scaleResult: int) returns (r: Conversion)
      ensures r == Convert(frame, encParameters, copyResult, scaleResult)
    {
      if frame.format != FormatI420 {
        return Unsupported;
      }
      if Wrap(frame.width) == encParameters.sourceWidth && Wrap(frame.height) == encParameters.sourceHeight {
        r := if copyResult != 0 then Failed(CopyPath) else Converted(CopyPath);
      } else {
        r := if scaleResult != 0 then Failed(ScalePath) else Converted(ScalePath);
      }
    }

    /** `fillPacketDone` for the output header: hand the packet to the
        destination as an H.265 frame. */
    method FillPacketDone() returns (out: OutFrame)
      requires |streamBufferPool| > 0 && encParameters.frameRate > 0
      modifies this`frameCount, this`delivered
      ensures FillStep(State(), out) == FillPacketDoneSpec(old(State()))
    {
      var header := streamBufferPool[0];
      var timeStamp := frameCount * 1000 / encParameters.frameRate * 90;
      frameCount := frameCount + 1;
      out := OutFrame(FormatH265, header.pBuffer, header.nOffset, header.nFilledLen, timeStamp,
                      encParameters.sourceWidth, encParameters.sourceHeight, header.sliceType == IdrSlice);
      delivered := delivered + [out];   // m_dest->onFrame
    }

    /** `onFrame`. `copyResult`/`scaleResult` are what libyuv returns,
        `send` and `poll` what `EbH265EncSendPicture` and `EbH265GetPacket`
        return, and `packet` what the poll writes into the output header. */
    method OnFrame(frame: Frame, copyResult: int, scaleResult: int, send: EbStatus, poll: EbStatus,
                   packet: Packet) returns (outcome: IngestOutcome)
      requires Valid() && CanIngest(State(), poll)
      modifies this`forceIdr, this`inputBufferPool, this`streamBufferPool, this`sent,
               this`frameCount, this`delivered
      ensures IngestStep(State(), outcome)
           == OnFrameSpec(old(State()), frame, copyResult, scaleResult, send, poll, packet)
      ensures Valid()
    {
      OnFrameKeepsInv(State(), frame, copyResult, scaleResult, send, poll, packet);
      if !ready {
        return NotReady;
      }
      if |freeInputBuffers| == 0 {
        return NoFreeBuffer;
      }
      var conversion := Convert2BufferHeader(frame, copyResult, scaleResult);
      if conversion.Unsupported? {
        return UnsupportedFormat;
      }
      if conversion.Failed? {
        return ConversionFailed(conversion.path);
      }
      outcome := SubmitPicture(conversion.path, send, poll, packet);
    }

    /** The end of `onFrame` once the frame is in the header at the front of
        the free queue. */
    method SubmitPicture(path: ConvertPath, send: EbStatus, poll: EbStatus, packet: Packet)
      returns (outcome: IngestOutcome)
      requires |freeInputBuffers| > 0 && |streamBufferPool| > 0
      requires PollDelivers(poll) ==> encParameters.frameRate > 0
      modifies this`forceIdr, this`inputBufferPool, this`streamBufferPool, this`sent,
               this`frameCount, this`delivered
      ensures IngestStep(State(), outcome) == SubmitSpec(old(State()), path, send, poll, packet)
    {
      TagFront(send);
      if send != EbErrorNone {
        return SendFailed(path);
      }
      outcome := PollPacket(path, poll, packet);
    }

    /** Tag the header at the front of the free queue, the one in the input
        pool's storage at that slot, and send it. */
    method TagFront(send: EbStatus)
      requires |freeInputBuffers| > 0
      modifies this`forceIdr, this`inputBufferPool, this`sent
      ensures State() == TagFrontSpec(old(State()), send)
    {
      var inputBufferHeader := freeInputBuffers[0];
      var tag;
      if forceIdr {
        tag := IdrSlice;
        forceIdr := false;
      } else {
        tag := InvalidSlice;
      }
      inputBufferPool := TagBuffer(inputBufferPool, inputStorage.base, inputBufferHeader, tag);
      sent := sent + [Picture(inputBufferHeader, tag, send == EbErrorNone)];   // EbH265EncSendPicture
    }

    /** Poll the engine once into the output header (`EbH265GetPacket`). */
    method PollPacket(path: ConvertPath, poll: EbStatus, packet: Packet) returns (outcome: IngestOutcome)
      requires |streamBufferPool| > 0 && (PollDelivers(poll) ==> encParameters.frameRate > 0)
      modifies this`streamBufferPool, this`frameCount, this`delivered
      ensures IngestStep(State(), outcome) == PollSpec(old(State()), path, poll, packet)
    {
      streamBufferPool := streamBufferPool[0 := streamBufferPool[0].(
        nFilledLen := packet.nFilledLen, nOffset := packet.nOffset, sliceType := packet.sliceType)];
      if poll == EbErrorMax {
        return PollFailed(path);
      } else if poll != EbNoErrorEmptyQueue {
        var out := FillPacketDone();
        return Delivered(path, out);
      }
      outcome := NoPacket(path);
    }
  }
}
