// What a restart does to the input pool and the free-input-buffer queue.
// `deallocateBuffers` frees every block and `resize(0)`s both pools, but keeps
// the input pool's storage and never empties the queue; `onFrame` reads the
// queue's front without popping it. The next `allocateBuffers` builds its new
// input header in that same storage and pushes the same slot again. After
// `generateStream`, `degenerateStream` and a second `generateStream` the queue
// holds that slot twice, and the frames that follow are converted into, tagged
// in and sent from the live header of the second stream.
module RestartFacts {
  import opened Opt
  import opened Uint32
  import opened EncoderParams
  import opened BufferPool
  import opened BufferPoolFacts
  import opened EncoderSpec
  import opened AllocationFacts
  import opened LifecycleFacts
  import opened IngestFacts

  /** An idle encoder with nothing allocated and its queued slots inside the
      input pool's storage. */
  predicate IdleEmpty(s: Session)
  {
    && !s.ready && s.dest.None? && s.inputPool == [] && s.streamPool == [] && s.heap == map[]
    && SlotsInStorage(s)
  }

  /** A start with enough allocation calls for both pools succeeds. */
  lemma StartWithFiveCalls(c: Session, dest: SinkRef)
    requires Configured(c)
    ensures var g := StartSpec(c, dest, 5);
            var w, h := c.params.sourceWidth, c.params.sourceHeight;
      && g.ret == 0 && g.after.ready && g.after.params.sourceWidth == w && g.after.params.sourceHeight == h
      && g.after.params.frameRate == c.params.frameRate && g.after.sent == c.sent && g.after.forceIdr == c.forceIdr
      && g.after.inputPool == [InputEntry(c.nextAddr, 4, w, h)]
      && g.after.streamPool == [StreamEntry(c.nextAddr + 1, 1, w, h)]
      && g.after.inputStorage == Resize(c.inputStorage, 1)
      && g.after.freeInputBuffers == c.freeInputBuffers + [g.after.inputStorage.base]
      && g.after.nextAddr == c.nextAddr + 2
      && g.after.heap == PoolHeap(g.after.inputPool, g.after.streamPool, w, h)
  {
    AllocateClosedForm(c, 5);
    StartBuffers(c, dest, 5);
  }

  /** One successful `generateStream` on an idle, empty encoder: a new input
      header in the pool's storage (created only if there was none), its slot
      queued behind the slots already queued. */
  lemma StartFromIdle(s: Session, width: u32, height: u32, frameRate: u32, bitrateKbps: u32,
                      keyFrameIntervalSeconds: u32, dest: SinkRef)
    requires IdleEmpty(s)
    ensures var g := GenerateSpec(s, width, height, frameRate, bitrateKbps, keyFrameIntervalSeconds, dest,
                                  EbErrorNone, EbErrorNone, EbErrorNone, 5);
      && g.ret == 0 && g.after.ready && g.after.params.sourceWidth == width && g.after.params.sourceHeight == height
      && g.after.params.frameRate == frameRate && g.after.sent == s.sent && g.after.forceIdr == s.forceIdr
      && g.after.inputPool == [InputEntry(s.nextAddr, 4, width, height)]
      && g.after.streamPool == [StreamEntry(s.nextAddr + 1, 1, width, height)]
      && g.after.inputStorage == Resize(s.inputStorage, 1)
      && g.after.freeInputBuffers == s.freeInputBuffers + [g.after.inputStorage.base]
      && g.after.nextAddr == s.nextAddr + 2
      && g.after.heap == PoolHeap(g.after.inputPool, g.after.streamPool, width, height)
  {
    var p := Overlay(DefaultParams(), width, height, frameRate, bitrateKbps, keyFrameIntervalSeconds);
    GenerateStarts(s, width, height, frameRate, bitrateKbps, keyFrameIntervalSeconds, dest, 5);
    StartWithFiveCalls(s.(engine := EncoderRunning, params := p), dest);
  }

  /** Generate on an encoder that never held an input header, then tear
      down: the encoder is idle and empty again, but the pool keeps storage
      for one header and the queue still holds that header's slot. */
  lemma FirstStreamTornDown(s: Session, width: u32, height: u32, frameRate: u32, bitrateKbps: u32,
                            keyFrameIntervalSeconds: u32, dest: SinkRef)
    requires IdleEmpty(s) && s.freeInputBuffers == []
    ensures var g := GenerateSpec(s, width, height, frameRate, bitrateKbps, keyFrameIntervalSeconds, dest,
                                  EbErrorNone, EbErrorNone, EbErrorNone, 5);
            var d := DegenerateSpec(g.after);
      && g.ret == 0 && IdleEmpty(d)
      && d.inputStorage == g.after.inputStorage && d.inputStorage.capacity == 1
      && d.freeInputBuffers == [d.inputStorage.base] && d.nextAddr == s.nextAddr + 2
      && d.sent == s.sent && d.forceIdr == s.forceIdr
  {
    var g := GenerateSpec(s, width, height, frameRate, bitrateKbps, keyFrameIntervalSeconds, dest,
                          EbErrorNone, EbErrorNone, EbErrorNone, 5);
    StartFromIdle(s, width, height, frameRate, bitrateKbps, keyFrameIntervalSeconds, dest);
    AllocateResultSlots(s.(engine := EncoderRunning,
                           params := Overlay(DefaultParams(), width, height, frameRate, bitrateKbps,
                                             keyFrameIntervalSeconds)), 5);
    assert g.after.params.sourceWidth == width && g.after.params.sourceHeight == height;
    DeallocateNoLeak(g.after);
  }

  /** Generate on an idle encoder whose pool kept storage for one header and
      whose queue holds that header's slot `p`: the storage is kept, the new
      header is built in it at slot `p` with fresh blocks, and `p` is pushed
      again, so the queue holds the live header's slot twice. */
  lemma SecondStreamReusesSlot(d: Session, width: u32, height: u32, frameRate: u32,
                               bitrateKbps: u32, keyFrameIntervalSeconds: u32, dest: SinkRef)
    requires IdleEmpty(d) && d.inputStorage.capacity == 1 && d.freeInputBuffers == [d.inputStorage.base]
    ensures var g := GenerateSpec(d, width, height, frameRate, bitrateKbps, keyFrameIntervalSeconds, dest,
                                  EbErrorNone, EbErrorNone, EbErrorNone, 5);
            var p := d.inputStorage.base;
      && g.ret == 0 && g.after.ready && |g.after.streamPool| == 1 && g.after.params.frameRate == frameRate
      && g.after.sent == d.sent && g.after.forceIdr == d.forceIdr
      && g.after.inputStorage == d.inputStorage
      && g.after.freeInputBuffers == [p, p]
      && g.after.inputPool == [InputEntry(d.nextAddr, 4, width, height)]
      && Block(d.nextAddr, HeaderStorage) in g.after.heap
  {
    StartFromIdle(d, width, height, frameRate, bitrateKbps, keyFrameIntervalSeconds, dest);
    LiveHeaderAllocated(d.nextAddr, width, height);
  }

  /** Generate, tear down, generate again: both starts succeed, the input
      pool's storage is the one the first stream created, and the free queue
      holds its one slot twice, the slot where the second stream's input
      header lives, whose header storage is allocated. */
  lemma RestartQueuesSlotTwice(s: Session, width: u32, height: u32, frameRate: u32, bitrateKbps: u32,
                               keyFrameIntervalSeconds: u32, dest1: SinkRef, dest2: SinkRef)
    requires Inv(s) && !s.ready && s.freeInputBuffers == [] && s.inputStorage.capacity == 0
    ensures var g1 := GenerateSpec(s, width, height, frameRate, bitrateKbps, keyFrameIntervalSeconds, dest1,
                                   EbErrorNone, EbErrorNone, EbErrorNone, 5);
            var g2 := GenerateSpec(DegenerateSpec(g1.after), width, height, frameRate, bitrateKbps,
                                   keyFrameIntervalSeconds, dest2, EbErrorNone, EbErrorNone, EbErrorNone, 5);
            var p := g1.after.inputStorage.base;
      && g1.ret == 0 && g2.ret == 0
      && g1.after.freeInputBuffers == [p]
      && g2.after.ready && |g2.after.streamPool| == 1 && g2.after.params.frameRate == frameRate
      && g2.after.sent == s.sent && g2.after.forceIdr == s.forceIdr
      && g2.after.inputStorage == g1.after.inputStorage
      && g2.after.freeInputBuffers == [p, p]
      && g2.after.inputPool == [InputEntry(s.nextAddr + 2, 4, width, height)]
      && Block(s.nextAddr + 2, HeaderStorage) in g2.after.heap
  {
    var g1 := GenerateSpec(s, width, height, frameRate, bitrateKbps, keyFrameIntervalSeconds, dest1,
                           EbErrorNone, EbErrorNone, EbErrorNone, 5);
    EmptyPoolsHeap(s.params.sourceWidth, s.params.sourceHeight);
    StartFromIdle(s, width, height, frameRate, bitrateKbps, keyFrameIntervalSeconds, dest1);
    FirstStreamTornDown(s, width, height, frameRate, bitrateKbps, keyFrameIntervalSeconds, dest1);
    SecondStreamReusesSlot(DegenerateSpec(g1.after), width, height, frameRate, bitrateKbps,
                           keyFrameIntervalSeconds, dest2);
  }

  /** Generate, tear down, generate again keeps the session invariant. */
  lemma RestartKeepsInv(s: Session, width: u32, height: u32, frameRate: u32, bitrateKbps: u32,
                        keyFrameIntervalSeconds: u32, dest1: SinkRef, dest2: SinkRef)
    requires Inv(s)
    ensures var g1 := GenerateSpec(s, width, height, frameRate, bitrateKbps, keyFrameIntervalSeconds, dest1,
                                   EbErrorNone, EbErrorNone, EbErrorNone, 5);
      Inv(GenerateSpec(DegenerateSpec(g1.after), width, height, frameRate, bitrateKbps,
                       keyFrameIntervalSeconds, dest2, EbErrorNone, EbErrorNone, EbErrorNone, 5).after)
  {
    var g1 := GenerateSpec(s, width, height, frameRate, bitrateKbps, keyFrameIntervalSeconds, dest1,
                           EbErrorNone, EbErrorNone, EbErrorNone, 5);
    GenerateKeepsInv(s, width, height, frameRate, bitrateKbps, keyFrameIntervalSeconds, dest1,
                     EbErrorNone, EbErrorNone, EbErrorNone, 5);
    DegenerateReleasesAll(g1.after);
    GenerateKeepsInv(DegenerateSpec(g1.after), width, height, frameRate, bitrateKbps, keyFrameIntervalSeconds,
                     dest2, EbErrorNone, EbErrorNone, EbErrorNone, 5);
  }

  /** A frame on a ready encoder whose queue holds the live header's slot
      `p` twice: a frame that converts is tagged in that header and sent from
      `p`, and the queue is left as it was. */
  lemma FrameIntoLiveHeader(t: Session, p: Slot, e: InputHeader, frame: Frame, copyResult: int,
                            scaleResult: int, send: EbStatus, poll: EbStatus, packet: Packet)
    requires Inv(t) && t.ready && CanIngest(t, poll)
    requires t.inputStorage.base == p && t.freeInputBuffers == [p, p] && t.inputPool == [e]
    ensures var r := OnFrameSpec(t, frame, copyResult, scaleResult, send, poll, packet);
            var tag := if t.forceIdr then IdrSlice else InvalidSlice;
      Convert(frame, t.params, copyResult, scaleResult).Converted? ==>
        && r.after.sent == t.sent + [Picture(p, tag, send == EbErrorNone)]
        && r.after.inputPool == [e.(sliceType := tag)]
        && r.after.freeInputBuffers == [p, p]
  {
    OnFrameTagsLiveHeader(t, frame, copyResult, scaleResult, send, poll, packet);
    OnFrameSubmits(t, frame, copyResult, scaleResult, send, poll, packet);
  }

  /** After a restart, the first frame that converts is tagged in the live
      input header of the second stream and sent from its slot; the queue
      still holds that slot twice. */
  lemma RestartFramesUseLiveHeader(s: Session, width: u32, height: u32, frameRate: u32, bitrateKbps: u32,
                                   keyFrameIntervalSeconds: u32, dest1: SinkRef, dest2: SinkRef,
                                   frame: Frame, copyResult: int, scaleResult: int,
                                   send: EbStatus, poll: EbStatus, packet: Packet)
    requires Inv(s) && !s.ready && s.freeInputBuffers == [] && s.inputStorage.capacity == 0
    requires PollDelivers(poll) ==> frameRate > 0
    ensures var g1 := GenerateSpec(s, width, height, frameRate, bitrateKbps, keyFrameIntervalSeconds, dest1,
                                   EbErrorNone, EbErrorNone, EbErrorNone, 5);
            var t := GenerateSpec(DegenerateSpec(g1.after), width, height, frameRate, bitrateKbps,
                                  keyFrameIntervalSeconds, dest2, EbErrorNone, EbErrorNone, EbErrorNone, 5).after;
            var tag := if s.forceIdr then IdrSlice else InvalidSlice;
            var p := g1.after.inputStorage.base;
      && CanIngest(t, poll)
      && (Convert(frame, t.params, copyResult, scaleResult).Converted? ==>
            var r := OnFrameSpec(t, frame, copyResult, scaleResult, send, poll, packet);
            && r.after.sent == s.sent + [Picture(p, tag, send == EbErrorNone)]
            && r.after.inputPool == [InputEntry(s.nextAddr + 2, 4, width, height).(sliceType := tag)]
            && r.after.freeInputBuffers == [p, p])
  {
    var g1 := GenerateSpec(s, width, height, frameRate, bitrateKbps, keyFrameIntervalSeconds, dest1,
                           EbErrorNone, EbErrorNone, EbErrorNone, 5);
    var t := GenerateSpec(DegenerateSpec(g1.after), width, height, frameRate, bitrateKbps,
                          keyFrameIntervalSeconds, dest2, EbErrorNone, EbErrorNone, EbErrorNone, 5).after;
    RestartQueuesSlotTwice(s, width, height, frameRate, bitrateKbps, keyFrameIntervalSeconds, dest1, dest2);
    RestartKeepsInv(s, width, height, frameRate, bitrateKbps, keyFrameIntervalSeconds, dest1, dest2);
    FrameIntoLiveHeader(t, g1.after.inputStorage.base, InputEntry(s.nextAddr + 2, 4, width, height),
                        frame, copyResult, scaleResult, send, poll, packet);
  }

  /** The heap of a started stream holds the header storage of its input
      header. */
  lemma LiveHeaderAllocated(a: Addr, w: u32, h: u32)
    ensures Block(a, HeaderStorage) in PoolHeap([InputEntry(a, 4, w, h)], [StreamEntry(a + 1, 1, w, h)], w, h)
  {
    var inputs, streams := [InputEntry(a, 4, w, h)], [StreamEntry(a + 1, 1, w, h)];
    PoolHeapKeys(inputs, streams, w, h);
    assert PoolRefs(inputs, streams) == InputRefs(inputs[0]) + StreamRefs(streams[0]);
  }
}
