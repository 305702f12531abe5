// What the stream lifecycle guarantees: `allocateBuffers` with one buffer of
// each kind in plain terms, `generateStream`'s success, rejection and rollback
// paths, `degenerateStream`, and the session invariant across all of them.

module LifecycleFacts {
  import opened Opt
  import opened Uint32
  import opened EncoderParams
  import opened BufferPool
  import opened BufferPoolFacts
  import opened EncoderSpec
  import opened AllocationFacts

  /** Freeing every block the pools refer to, when the heap holds exactly
      those, leaves nothing allocated. */
  lemma DeallocateNoLeak(s: Session)
    requires s.heap == PoolHeap(s.inputPool, s.streamPool, s.params.sourceWidth, s.params.sourceHeight)
    ensures DeallocateSpec(s).heap == map[]
    ensures DeallocateSpec(s).inputPool == [] && DeallocateSpec(s).streamPool == []
  {
  }

  /** Pools of one input header with identity `base` and at most one output
      header with `base + 1`, accounting for the heap, below the fresh mark. */
  lemma OneHeaderAccounted(a: Session, base: Addr, k: nat)
    requires k <= 4
    requires a.inputPool == [InputEntry(base, k, a.params.sourceWidth, a.params.sourceHeight)]
    requires |a.streamPool| <= 1
    requires forall j :: 0 <= j < |a.streamPool| ==> a.streamPool[j].id == base + 1 && StreamWellFormed(a.streamPool[j])
    requires a.nextAddr == base + 1 + |a.streamPool|
    requires a.heap == PoolHeap(a.inputPool, a.streamPool, a.params.sourceWidth, a.params.sourceHeight)
    ensures Accounted(a)
  {
    assert InputWellFormed(a.inputPool[0]);
  }

  /** The closed form of `allocateBuffers` from an empty heap with empty
      pools: the heap is accounted for, and on success the buffers are set
      up. */
  lemma AllocateResultAccounted(s: Session, budget: nat)
    requires s.inputPool == [] && s.streamPool == [] && s.heap == map[]
    ensures Accounted(AllocateResult(s, budget).after)
    ensures AllocateResult(s, budget).ok ==> BuffersReady(AllocateResult(s, budget).after)
  {
    var a := AllocateResult(s, budget).after;
    var base := s.nextAddr;
    var w, h := s.params.sourceWidth, s.params.sourceHeight;
    assert map[] + PoolHeap(a.inputPool, a.streamPool, w, h) == PoolHeap(a.inputPool, a.streamPool, w, h);
    OneHeaderAccounted(a, base, Min(budget, 4));
  }

  /** The input pool's storage across `allocateBuffers`: created on the first
      call and kept from then on, so the slot queued on success is the one
      every earlier queued slot names. */
  lemma AllocateResultSlots(s: Session, budget: nat)
    requires SlotsInStorage(s) && s.inputPool == []
    ensures var a := AllocateResult(s, budget).after;
      && SlotsInStorage(a)
      && a.inputStorage.capacity == 1
      && (s.inputStorage.capacity > 0 ==> a.inputStorage == s.inputStorage)
      && (s.inputStorage.capacity == 0 ==> s.freeInputBuffers == [])
  {
    if s.freeInputBuffers != [] {
      assert s.inputStorage.base <= s.freeInputBuffers[0] < s.inputStorage.base + s.inputStorage.capacity;
    }
  }

  /** Allocating from an empty heap with empty pools: the pools are well formed,
      use fresh identities only, and account for the whole heap, and the free
      queue stays within the input pool's storage; on success both headers
      are finished and the input header's slot is at the back of the free
      queue. */
  lemma AllocateAccounts(s: Session, budget: nat)
    requires s.inputPool == [] && s.streamPool == [] && s.heap == map[]
    requires SlotsInStorage(s)
    ensures Accounted(AllocateSpec(s, budget).after)
    ensures SlotsInStorage(AllocateSpec(s, budget).after)
    ensures AllocateSpec(s, budget).ok ==> BuffersReady(AllocateSpec(s, budget).after)
  {
    AllocateClosedForm(s, budget);
    AllocateResultAccounted(s, budget);
    AllocateResultSlots(s, budget);
  }

  /** `deallocateBuffers` after an allocation that failed part-way frees
      everything it allocated. */
  lemma AllocateRollbackNoLeak(s: Session, budget: nat)
    requires s.inputPool == [] && s.streamPool == [] && s.heap == map[]
    requires SlotsInStorage(s)
    ensures DeallocateSpec(AllocateSpec(s, budget).after).heap == map[]
  {
    AllocateAccounts(s, budget);
    DeallocateNoLeak(AllocateSpec(s, budget).after);
  }

  /** Empty pools account for nothing, whatever the resolution. */
  lemma EmptyPoolsHeap(w: u32, h: u32)
    ensures PoolHeap([], [], w, h) == map[]
  {
    assert PoolRefs([], []) == {};
  }

  /** `generateStream` on a ready encoder is refused and changes nothing. */
  lemma GenerateRefusedWhenReady(s: Session, width: u32, height: u32, frameRate: u32, bitrateKbps: u32,
                                 keyFrameIntervalSeconds: u32, dest: SinkRef, initHandle: EbStatus,
                                 setParameter: EbStatus, initEncoder: EbStatus, allocBudget: nat)
    requires s.ready
    ensures GenerateSpec(s, width, height, frameRate, bitrateKbps, keyFrameIntervalSeconds, dest,
                         initHandle, setParameter, initEncoder, allocBudget) == GenerateStep(s, -1)
  {
  }

  /** `generateStream` succeeds exactly when the encoder was idle, the three
      engine calls succeed and all five allocations do; then the encoder is
      ready, delivers to `dest`, counts frames from zero and runs with the
      caller's settings laid over the defaults. */
  lemma GenerateSuccess(s: Session, width: u32, height: u32, frameRate: u32, bitrateKbps: u32,
                        keyFrameIntervalSeconds: u32, dest: SinkRef, initHandle: EbStatus,
                        setParameter: EbStatus, initEncoder: EbStatus, allocBudget: nat)
    requires Inv(s)
    ensures var g := GenerateSpec(s, width, height, frameRate, bitrateKbps, keyFrameIntervalSeconds, dest,
                                  initHandle, setParameter, initEncoder, allocBudget);
      && (g.ret == 0 <==> !s.ready && initHandle == EbErrorNone && setParameter == EbErrorNone
                          && initEncoder == EbErrorNone && allocBudget >= 5)
      && (g.ret != 0 ==> g.ret == -1)
      && (g.ret == 0 ==>
            && g.after.ready && g.after.dest == Some(dest) && g.after.frameCount == 0
            && g.after.engine == EncoderRunning
            && g.after.params == Overlay(DefaultParams(), width, height, frameRate, bitrateKbps,
                                         keyFrameIntervalSeconds).(inputOutputBufferFifoInitCount := 1))
  {
    if !s.ready && initHandle == EbErrorNone && setParameter == EbErrorNone && initEncoder == EbErrorNone {
      var c := s.(engine := EncoderRunning,
                  params := Overlay(DefaultParams(), width, height, frameRate, bitrateKbps, keyFrameIntervalSeconds));
      AllocateClosedForm(c, allocBudget);
    }
  }

  /** Once the handle is open and the engine configured and started,
      `generateStream` is the start on the configured encoder. */
  lemma GenerateStarts(s: Session, width: u32, height: u32, frameRate: u32, bitrateKbps: u32,
                       keyFrameIntervalSeconds: u32, dest: SinkRef, allocBudget: nat)
    requires !s.ready
    ensures GenerateSpec(s, width, height, frameRate, bitrateKbps, keyFrameIntervalSeconds, dest,
                         EbErrorNone, EbErrorNone, EbErrorNone, allocBudget)
         == StartSpec(s.(engine := EncoderRunning,
                         params := Overlay(DefaultParams(), width, height, frameRate, bitrateKbps,
                                           keyFrameIntervalSeconds)), dest, allocBudget)
  {
  }

  /** The buffers of a successful start: one finished input header and one
      output header with the next two fresh identities, the input header in
      the pool's storage (kept if it already existed, created otherwise) and
      its slot pushed onto the free queue behind whatever it already held,
      and the heap holding exactly their blocks. */
  lemma StartBuffers(c: Session, dest: SinkRef, allocBudget: nat)
    requires Configured(c)
    ensures var g := StartSpec(c, dest, allocBudget);
            var w, h := c.params.sourceWidth, c.params.sourceHeight;
      g.ret == 0 ==>
        && g.after.inputPool == [InputEntry(c.nextAddr, 4, w, h)]
        && g.after.streamPool == [StreamEntry(c.nextAddr + 1, 1, w, h)]
        && g.after.inputStorage == Resize(c.inputStorage, 1)
        && g.after.freeInputBuffers == c.freeInputBuffers + [g.after.inputStorage.base]
        && g.after.nextAddr == c.nextAddr + 2
        && g.after.heap == PoolHeap(g.after.inputPool, g.after.streamPool, w, h)
  {
    AllocateClosedForm(c, allocBudget);
  }

  /** A `generateStream` that fails on an idle encoder leaves it idle with
      nothing allocated: what `allocateBuffers` got before failing is freed
      again. */
  lemma GenerateFailureReleasesAll(s: Session, width: u32, height: u32, frameRate: u32, bitrateKbps: u32,
                                   keyFrameIntervalSeconds: u32, dest: SinkRef, initHandle: EbStatus,
                                   setParameter: EbStatus, initEncoder: EbStatus, allocBudget: nat)
    requires Inv(s) && !s.ready
    ensures var g := GenerateSpec(s, width, height, frameRate, bitrateKbps, keyFrameIntervalSeconds, dest,
                                  initHandle, setParameter, initEncoder, allocBudget);
      g.ret != 0 ==>
        && !g.after.ready && g.after.engine == NoHandle && g.after.dest == None
        && g.after.inputPool == [] && g.after.streamPool == [] && g.after.heap == map[]
  {
    EmptyPoolsHeap(s.params.sourceWidth, s.params.sourceHeight);
    if initHandle == EbErrorNone && setParameter == EbErrorNone && initEncoder == EbErrorNone {
      var c := s.(engine := EncoderRunning,
                  params := Overlay(DefaultParams(), width, height, frameRate, bitrateKbps, keyFrameIntervalSeconds));
      AllocateRollbackNoLeak(c, allocBudget);
    }
  }

  /** The configured, idle encoder that `allocateBuffers` starts from. */
  predicate Configured(c: Session)
  {
    && !c.ready && c.engine == EncoderRunning && c.dest.None?
    && c.inputPool == [] && c.streamPool == [] && c.heap == map[]
    && SlotsInStorage(c)
  }

  /** An idle encoder whose engine has just started is `Configured`, whatever
      its parameters. */
  lemma IdleConfigured(s: Session, p: EncParams)
    requires Inv(s) && !s.ready
    ensures Configured(s.(engine := EncoderRunning, params := p))
  {
    EmptyPoolsHeap(s.params.sourceWidth, s.params.sourceHeight);
  }

  /** The last step of `generateStream` after a successful allocation. */
  lemma AllocateThenReady(c: Session, budget: nat, dest: SinkRef)
    requires Configured(c) && AllocateSpec(c, budget).ok
    ensures Inv(AllocateSpec(c, budget).after.(frameCount := 0, dest := Some(dest), ready := true))
  {
    AllocateAccounts(c, budget);
  }

  /** The rollback of `generateStream` after a failed allocation. */
  lemma AllocateThenRollback(c: Session, budget: nat)
    requires Configured(c)
    ensures Inv(DeallocateSpec(AllocateSpec(c, budget).after).(engine := NoHandle))
  {
    AllocateAccounts(c, budget);
    AllocateRollbackNoLeak(c, budget);
    EmptyPoolsHeap(c.params.sourceWidth, c.params.sourceHeight);
  }

  /** `generateStream` keeps the session invariant. */
  lemma GenerateKeepsInv(s: Session, width: u32, height: u32, frameRate: u32, bitrateKbps: u32,
                         keyFrameIntervalSeconds: u32, dest: SinkRef, initHandle: EbStatus,
                         setParameter: EbStatus, initEncoder: EbStatus, allocBudget: nat)
    requires Inv(s)
    ensures Inv(GenerateSpec(s, width, height, frameRate, bitrateKbps, keyFrameIntervalSeconds, dest,
                             initHandle, setParameter, initEncoder, allocBudget).after)
  {
    if !s.ready && initHandle == EbErrorNone {
      var p := Overlay(DefaultParams(), width, height, frameRate, bitrateKbps, keyFrameIntervalSeconds);
      EmptyPoolsHeap(s.params.sourceWidth, s.params.sourceHeight);
      EmptyPoolsHeap(p.sourceWidth, p.sourceHeight);
      if setParameter == EbErrorNone && initEncoder == EbErrorNone {
        var c := s.(engine := EncoderRunning, params := p);
        if AllocateSpec(c, allocBudget).ok {
          AllocateThenReady(c, allocBudget, dest);
        } else {
          AllocateThenRollback(c, allocBudget);
        }
      }
    }
  }

  /** `degenerateStream` (and the destructor) on a valid session: the encoder
      ends idle with every block freed; the input pool's storage, the free
      queue and the identity supply are left as they were. */
  lemma DegenerateReleasesAll(s: Session)
    requires Inv(s)
    ensures var d := DegenerateSpec(s);
      && Inv(d) && !d.ready && d.engine == NoHandle && d.dest == None && d.heap == map[]
      && d.inputStorage == s.inputStorage
      && d.freeInputBuffers == s.freeInputBuffers && d.nextAddr == s.nextAddr
  {
    DeallocateNoLeak(s);
    EmptyPoolsHeap(s.params.sourceWidth, s.params.sourceHeight);
  }

  /** Tearing down twice is tearing down once. */
  lemma DegenerateIdempotent(s: Session)
    ensures DegenerateSpec(DegenerateSpec(s)) == DegenerateSpec(s)
  {
  }

  /** While the encoder is ready, every slot in the free queue is the slot of
      the live input header: the pool's storage holds exactly that header. */
  lemma ReadyQueueNamesLiveHeader(s: Session)
    requires Inv(s) && s.ready
    ensures s.inputStorage.capacity == 1 && |s.inputPool| == 1
    ensures forall k :: 0 <= k < |s.freeInputBuffers| ==> s.freeInputBuffers[k] == s.inputStorage.base
  {
  }
}
