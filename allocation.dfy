// Steps of the allocation loops, used to prove `allocateBuffers` against
// `AllocateSpec`.
module AllocationFacts {
  import opened Opt
  import opened Uint32
  import opened BufferPool
  import opened BufferPoolFacts
  import opened EncoderSpec

  /** One pass of the input loop, given what the pass over header
      `bufferIndex` produced. */
  lemma InputLoopNext(w: u32, h: u32, slots: Slot, bufferIndex: nat, remaining: nat, st: InputPhase,
                      e: InputHeader, heap: map<Block, Size>, ok: bool)
    requires bufferIndex < |st.pool|
    requires HeaderAlloc(e, heap, ok) == AllocInputHeader(st.pool[bufferIndex], w, h, 0, remaining, st.heap)
    ensures ok ==> remaining >= 4
    ensures ok ==>
      InputLoop(w, h, slots, bufferIndex, remaining, st)
      == InputLoop(w, h, slots, bufferIndex + 1, remaining - 4,
                   InputPhase(st.pool[bufferIndex := e], st.queue + [slots + bufferIndex], heap))
    ensures !ok ==>
      InputLoop(w, h, slots, bufferIndex, remaining, st)
      == InputLoopEnd(false, st.(pool := st.pool[bufferIndex := e], heap := heap), 0)
  {
  }

  /** One more successful call adds exactly the block of that call. */
  lemma InputEntryStep(a: Addr, k: nat, w: u32, h: u32)
    requires k < 4
    ensures InputRefs(InputEntry(a, k + 1, w, h)) == InputRefs(InputEntry(a, k, w, h)) + {Block(a, InputPart(k))}
    ensures InputWellFormed(InputEntry(a, k + 1, w, h))
  {
  }

  /** Finishing header `done` is the same as starting header `done + 1`. */
  lemma InputPoolAtNext(base: Addr, n: nat, done: nat, w: u32, h: u32)
    requires done < n
    ensures InputPoolAt(base, n, done, 4, w, h) == InputPoolAt(base, n, done + 1, 0, w, h)
  {
  }

  /** Position of a block kind in the order `allocateBuffers` allocates them. */
  function PartIndex(p: Part): nat
  {
    match p
    case HeaderStorage => 0
    case LumaPlane => 1
    case CbPlane => 2
    case CrPlane => 3
    case Bitstream => 4
  }

  /** An input header after `k` calls refers to exactly its first `k` blocks. */
  lemma InputEntryRefs(a: Addr, k: nat, w: u32, h: u32)
    requires k <= 4
    ensures forall b :: b in InputRefs(InputEntry(a, k, w, h)) <==> b.owner == a && PartIndex(b.part) < k
  {
  }

  /** The heap blocks one input header accounts for. */
  function InputHeap(e: InputHeader, w: u32, h: u32): map<Block, Size>
  {
    map b | b in InputRefs(e) :: PartSize(b.part, w, h)
  }

  /** One more successful call for a header adds exactly that call's block. */
  lemma InputHeapStep(a: Addr, k: nat, w: u32, h: u32)
    requires k < 4
    ensures InputHeap(InputEntry(a, k + 1, w, h), w, h)
         == InputHeap(InputEntry(a, k, w, h), w, h)[Block(a, InputPart(k)) := PartSize(InputPart(k), w, h)]
    ensures Block(a, InputPart(k)) !in InputRefs(InputEntry(a, k, w, h))
  {
    InputEntryStep(a, k, w, h);
    InputEntryRefs(a, k, w, h);
  }

  /** Queueing header `k` after headers `0 .. k-1`. */
  lemma QueueGrow(q: seq<Slot>, base: Slot, k: nat)
    ensures q + SlotRange(base, k) + [base + k] == q + SlotRange(base, k + 1)
  {
    assert SlotRange(base, k) + [base + k] == SlotRange(base, k + 1);
  }

  /** Adding one more block to the part of a heap that a header accounts for. */
  lemma HeapExtend(rest: map<Block, Size>, part: map<Block, Size>, b: Block, size: Size)
    ensures (rest + part)[b := size] == rest + part[b := size]
  {
  }

  lemma HeapAssoc(a: map<Block, Size>, b: map<Block, Size>, c: map<Block, Size>)
    ensures a + b + c == a + (b + c)
  {
  }

  /** Storing header `done` after `k` calls into the pool adds its blocks. */
  lemma InputPoolAtFill(base: Addr, n: nat, done: nat, k: nat, w: u32, h: u32)
    requires done < n && k <= 4
    ensures InputPoolAt(base, n, done, k, w, h)
         == InputPoolAt(base, n, done, 0, w, h)[done := InputEntry(base + done, k, w, h)]
    ensures PoolHeap(InputPoolAt(base, n, done, k, w, h), [], w, h)
         == PoolHeap(InputPoolAt(base, n, done, 0, w, h), [], w, h) + InputHeap(InputEntry(base + done, k, w, h), w, h)
  {
    var p := InputPoolAt(base, n, done, 0, w, h);
    var e := InputEntry(base + done, k, w, h);
    assert p[done] == InputEntry(base + done, 0, w, h);
    assert InputPoolAt(base, n, done, k, w, h) == p[done := e];
    InputRefsGrow(p, done, e, InputRefs(e));
    assert PoolRefs(p[done := e], []) == PoolRefs(p, []) + InputRefs(e);
  }

  /** Every block the pool refers to before header `done` is allocated belongs
      to an earlier header. */
  lemma InputPoolAtOwners(base: Addr, n: nat, done: nat, w: u32, h: u32)
    requires done <= n
    ensures forall b | b in PoolRefs(InputPoolAt(base, n, done, 0, w, h), []) :: base <= b.owner < base + done
  {
    var p := InputPoolAt(base, n, done, 0, w, h);
    forall b | b in PoolRefs(p, [])
      ensures base <= b.owner < base + done
    {
      var i :| 0 <= i < |p| && b in InputRefs(p[i]);
      var calls := if i < done then 4 else 0;
      assert p[i] == InputEntry(base + i, calls, w, h);
      InputEntryRefs(base + i, calls, w, h);
    }
  }

  /** Before the first allocation the zeroed pool refers to nothing. */
  lemma InputPoolAtStart(base: Addr, n: nat, w: u32, h: u32)
    ensures PoolHeap(InputPoolAt(base, n, 0, 0, w, h), [], w, h) == map[]
  {
    InputPoolAtOwners(base, n, 0, w, h);
    assert PoolRefs(InputPoolAt(base, n, 0, 0, w, h), []) == {};
  }

  /** Where the input loop stops on the failing call, the pool is the one the
      specification describes. */
  lemma InputFailureShape(base: Addr, n: nat, budget: nat, done: nat, k: nat, w: u32, h: u32)
    requires done < n && k < 4 && budget == 4 * done + k
    ensures AllocatedInputs(base, n, budget, w, h) == InputPoolAt(base, n, done, k, w, h)
    ensures budget / 4 == done
  {
  }

  lemma InputSuccessShape(base: Addr, n: nat, budget: nat, w: u32, h: u32)
    requires budget >= 4 * n
    ensures AllocatedInputs(base, n, budget, w, h) == InputPoolAt(base, n, n, 0, w, h)
  {
  }

  lemma StreamPoolAtStep(base: Addr, n: nat, done: nat, w: u32, h: u32)
    requires done < n
    ensures StreamPoolAt(base, n, done + 1, w, h)
         == StreamPoolAt(base, n, done, w, h)[done := StreamEntry(base + n + done, 1, w, h)]
    ensures Block(base + n + done, Bitstream) !in StreamPoolRefs(StreamPoolAt(base, n, done, w, h))
    ensures StreamPoolRefs(StreamPoolAt(base, n, done + 1, w, h))
         == StreamPoolRefs(StreamPoolAt(base, n, done, w, h)) + {Block(base + n + done, Bitstream)}
  {
    var p := StreamPoolAt(base, n, done, w, h);
    var b := Block(base + n + done, Bitstream);
    assert p[done] == StreamEntry(base + n + done, 0, w, h);
    assert StreamPoolAt(base, n, done + 1, w, h) == p[done := StreamEntry(base + n + done, 1, w, h)];
    StreamRefsGrow(p, done, StreamEntry(base + n + done, 1, w, h), {b});
    forall j | 0 <= j < |p|
      ensures b !in StreamRefs(p[j])
    {
      assert p[j] == StreamEntry(base + n + j, if j < done then 1 else 0, w, h);
    }
  }

  lemma StreamShape(base: Addr, n: nat, budget: nat, done: nat, w: u32, h: u32)
    requires done <= n && budget >= 4 * n
    requires if done < n then budget == 4 * n + done else budget >= 5 * n
    ensures AllocatedStreams(base, n, budget, w, h) == StreamPoolAt(base, n, done, w, h)
  {
  }

  /** A zeroed header accounts for no block. */
  lemma InputHeapZero(a: Addr, w: u32, h: u32)
    ensures InputHeap(InputEntry(a, 0, w, h), w, h) == map[]
  {
    assert InputRefs(InputEntry(a, 0, w, h)) == {};
  }

  /** The pass over one header from call `k` on, in closed form: with `budget`
      calls left it makes `Min(budget, 4 - k)` more of them, and the heap gains
      exactly the blocks of those calls. */
  lemma {:induction false} AllocInputHeaderFrom(a: Addr, w: u32, h: u32, k: nat, budget: nat,
                                                 rest: map<Block, Size>)
    requires k < 4
    decreases 4 - k
    ensures var m := k + Min(budget, 4 - k);
      AllocInputHeader(InputEntry(a, k, w, h), w, h, k, budget, rest + InputHeap(InputEntry(a, k, w, h), w, h))
      == HeaderAlloc(InputEntry(a, m, w, h), rest + InputHeap(InputEntry(a, m, w, h), w, h), budget >= 4 - k)
  {
    var e := InputEntry(a, k, w, h);
    if budget > 0 {
      var b := Block(a, InputPart(k));
      var size := PartSize(b.part, w, h);
      InputHeapStep(a, k, w, h);
      HeapExtend(rest, InputHeap(e, w, h), b, size);
      if k < 3 {
        assert Attach(e, b) == InputEntry(a, k + 1, w, h);
        AllocInputHeaderFrom(a, w, h, k + 1, budget - 1, rest);
      } else {
        assert Finish(Attach(e, b), w, h) == InputEntry(a, 4, w, h);
      }
    }
  }

  /** The whole pass over a zeroed header. */
  lemma AllocInputHeaderResult(a: Addr, w: u32, h: u32, budget: nat, heap: map<Block, Size>)
    ensures var m := Min(budget, 4);
      AllocInputHeader(InputEntry(a, 0, w, h), w, h, 0, budget, heap)
      == HeaderAlloc(InputEntry(a, m, w, h), heap + InputHeap(InputEntry(a, m, w, h), w, h), budget >= 4)
  {
    InputHeapZero(a, w, h);
    assert heap + InputHeap(InputEntry(a, 0, w, h), w, h) == heap;
    AllocInputHeaderFrom(a, w, h, 0, budget, heap);
  }

  /** One pass of the input loop over header `i`, with the pool and the
      heap as the closed form describes them before that pass. */
  lemma InputLoopAdvance(w: u32, h: u32, base: Addr, slots: Slot, n: nat, i: nat, budget: nat,
                         queue: seq<Slot>, rest: map<Block, Size>)
    requires i < n && budget >= 4 * i
    ensures var pool := InputPoolAt(base, n, i, 0, w, h);
            var next := InputPoolAt(base, n, i + 1, 0, w, h);
            var start := InputLoop(w, h, slots, i, budget - 4 * i,
                                   InputPhase(pool, queue + SlotRange(slots, i), rest + PoolHeap(pool, [], w, h)));
      && (budget >= 4 * (i + 1) ==>
            start == InputLoop(w, h, slots, i + 1, budget - 4 * (i + 1),
                               InputPhase(next, queue + SlotRange(slots, i + 1), rest + PoolHeap(next, [], w, h))))
      && (budget < 4 * (i + 1) ==>
            var inputs := AllocatedInputs(base, n, budget, w, h);
            start == InputLoopEnd(false, InputPhase(inputs, queue + SlotRange(slots, Min(n, budget / 4)),
                                                    rest + PoolHeap(inputs, [], w, h)), 0))
  {
    var pool := InputPoolAt(base, n, i, 0, w, h);
    var heap := rest + PoolHeap(pool, [], w, h);
    var left := budget - 4 * i;
    var a := base + i;
    assert pool[i] == InputEntry(a, 0, w, h);
    AllocInputHeaderResult(a, w, h, left, heap);
    var m := Min(left, 4);
    InputPoolAtFill(base, n, i, m, w, h);
    HeapAssoc(rest, PoolHeap(pool, [], w, h), InputHeap(InputEntry(a, m, w, h), w, h));
    if left >= 4 {
      InputPoolAtNext(base, n, i, w, h);
      QueueGrow(queue, slots, i);
    } else {
      InputFailureShape(base, n, budget, i, left, w, h);
    }
  }

  /** The input loop from header `i` on, in closed form, when `budget`
      calls were granted at its start: headers `0 .. i-1` are finished and
      queued, and the loop succeeds exactly when the budget covers four calls
      for every header. */
  lemma {:induction false} InputLoopFrom(w: u32, h: u32, base: Addr, slots: Slot, n: nat, i: nat, budget: nat,
                                         queue: seq<Slot>, rest: map<Block, Size>)
    requires i <= n && budget >= 4 * i
    decreases n - i
    ensures var pool := InputPoolAt(base, n, i, 0, w, h);
            var inputs := AllocatedInputs(base, n, budget, w, h);
      InputLoop(w, h, slots, i, budget - 4 * i,
                InputPhase(pool, queue + SlotRange(slots, i), rest + PoolHeap(pool, [], w, h)))
      == InputLoopEnd(budget >= 4 * n,
                      InputPhase(inputs, queue + SlotRange(slots, Min(n, budget / 4)),
                                 rest + PoolHeap(inputs, [], w, h)),
                      if budget >= 4 * n then budget - 4 * n else 0)
  {
    if i == n {
      InputSuccessShape(base, n, budget, w, h);
      assert Min(n, budget / 4) == n;
    } else {
      InputLoopAdvance(w, h, base, slots, n, i, budget, queue, rest);
      if budget >= 4 * (i + 1) {
        InputLoopFrom(w, h, base, slots, n, i + 1, budget, queue, rest);
      }
    }
  }

  /** The output loop from header `j` on, in closed form, when `budget`
      calls were granted to the whole allocation: it succeeds exactly when one
      call is left for every output header. */
  lemma {:induction false} StreamLoopFrom(w: u32, h: u32, base: Addr, n: nat, j: nat, budget: nat,
                                          rest: map<Block, Size>)
    requires j <= n && budget >= 4 * n + j
    decreases n - j
    ensures var pool := StreamPoolAt(base, n, j, w, h);
            var streams := AllocatedStreams(base, n, budget, w, h);
      StreamLoop(w, h, j, budget - 4 * n - j, pool, rest + PoolHeap([], pool, w, h))
      == StreamLoopEnd(budget >= 5 * n, streams, rest + PoolHeap([], streams, w, h))
  {
    var pool := StreamPoolAt(base, n, j, w, h);
    if j == n || budget == 4 * n + j {
      StreamShape(base, n, budget, j, w, h);
    } else {
      var b := Block(base + n + j, Bitstream);
      var size := Bytes(OutputSize(w, h));
      var next := StreamPoolAt(base, n, j + 1, w, h);
      StreamPoolAtStep(base, n, j, w, h);
      assert pool[j] == StreamEntry(base + n + j, 0, w, h);
      assert pool[j].(pBuffer := Some(b), nAllocLen := OutputSize(w, h), sliceType := InvalidSlice)
          == StreamEntry(base + n + j, 1, w, h);
      assert PoolRefs([], next) == PoolRefs([], pool) + {b};
      assert PoolHeap([], next, w, h) == PoolHeap([], pool, w, h)[b := size];
      HeapExtend(rest, PoolHeap([], pool, w, h), b, size);
      StreamLoopFrom(w, h, base, n, j + 1, budget, rest);
    }
  }

  lemma PoolHeapUnion(inputs: seq<InputHeader>, streams: seq<StreamHeader>, w: u32, h: u32)
    ensures PoolHeap(inputs, [], w, h) + PoolHeap([], streams, w, h) == PoolHeap(inputs, streams, w, h)
  {
    assert StreamPoolRefs([]) == {} && InputPoolRefs([]) == {};
  }

  /** The zeroed output pool refers to nothing. */
  lemma StreamPoolAtStart(base: Addr, n: nat, w: u32, h: u32)
    ensures ZeroedStreams(base + n, n, w, h) == StreamPoolAt(base, n, 0, w, h)
    ensures PoolHeap([], StreamPoolAt(base, n, 0, w, h), w, h) == map[]
  {
    var p := StreamPoolAt(base, n, 0, w, h);
    forall j | 0 <= j < n
      ensures p[j] == StreamEntry(base + n + j, 0, w, h)
    {
    }
    assert PoolRefs([], p) == {};
  }

  /** The input phase of `allocateBuffers`, in closed form. */
  lemma AllocateInputPhase(base: Addr, slots: Slot, w: u32, h: u32, budget: nat, queue: seq<Slot>,
                           heap: map<Block, Size>)
    ensures var n := BufferCount as nat;
            var inputs := AllocatedInputs(base, n, budget, w, h);
      InputLoop(w, h, slots, 0, budget, InputPhase(ZeroedInputs(base, n, w, h), queue, heap))
      == InputLoopEnd(budget >= 4 * n,
                      InputPhase(inputs, queue + SlotRange(slots, Min(n, budget / 4)), heap + PoolHeap(inputs, [], w, h)),
                      if budget >= 4 * n then budget - 4 * n else 0)
  {
    var n := BufferCount as nat;
    assert ZeroedInputs(base, n, w, h) == InputPoolAt(base, n, 0, 0, w, h);
    InputPoolAtStart(base, n, w, h);
    assert heap + PoolHeap(InputPoolAt(base, n, 0, 0, w, h), [], w, h) == heap;
    assert queue + SlotRange(slots, 0) == queue;
    InputLoopFrom(w, h, base, slots, n, 0, budget, queue, heap);
  }

  /** The output phase of `allocateBuffers`, in closed form. */
  lemma AllocateStreamPhase(base: Addr, w: u32, h: u32, budget: nat, heap: map<Block, Size>)
    requires budget >= 4 * BufferCount as nat
    ensures var n := BufferCount as nat;
            var streams := AllocatedStreams(base, n, budget, w, h);
      StreamLoop(w, h, 0, budget - 4 * n, ZeroedStreams(base + n, n, w, h), heap)
      == StreamLoopEnd(budget >= 5 * n, streams, heap + PoolHeap([], streams, w, h))
  {
    var n := BufferCount as nat;
    StreamPoolAtStart(base, n, w, h);
    assert heap + PoolHeap([], StreamPoolAt(base, n, 0, w, h), w, h) == heap;
    StreamLoopFrom(w, h, base, n, 0, budget, heap);
  }

  /** `allocateBuffers` when the input header runs out of allocations. */
  lemma AllocateInputsFail(s: Session, budget: nat)
    requires s.streamPool == [] && budget < 4
    ensures AllocateSpec(s, budget) == AllocateResult(s, budget)
  {
    var base := s.nextAddr;
    var w, h := s.params.sourceWidth, s.params.sourceHeight;
    var inputs := [InputEntry(base, budget, w, h)];
    assert AllocatedInputs(base, 1, budget, w, h) == inputs;
    var slots := Resize(s.inputStorage, 1).base;
    assert SlotRange(slots, 0) == [];
    AllocateInputPhase(base, slots, w, h, budget, s.freeInputBuffers, s.heap);
  }

  /** `AllocateSpec` once both loops are known to have run to the end. */
  lemma AllocateSpecBothPhases(s: Session, budget: nat, inputs: seq<InputHeader>, queue: seq<Slot>,
                               heap1: map<Block, Size>, left: nat, ok: bool, streams: seq<StreamHeader>,
                               heap2: map<Block, Size>)
    requires var w, h := s.params.sourceWidth, s.params.sourceHeight;
      && InputLoop(w, h, Resize(s.inputStorage, 1).base, 0, budget,
                   InputPhase(ZeroedInputs(s.nextAddr, 1, w, h), s.freeInputBuffers, s.heap))
         == InputLoopEnd(true, InputPhase(inputs, queue, heap1), left)
      && StreamLoop(w, h, 0, left, ZeroedStreams(s.nextAddr + 1, 1, w, h), heap1)
         == StreamLoopEnd(ok, streams, heap2)
    ensures AllocateSpec(s, budget)
         == AllocStep(ok, s.(params := s.params.(inputOutputBufferFifoInitCount := 1), inputPool := inputs,
                             inputStorage := Resize(s.inputStorage, 1), streamPool := streams, freeInputBuffers := queue, nextAddr := s.nextAddr + 2,
                             heap := heap2))
  {
  }

  /** Both loops of `allocateBuffers` once the input header is finished. */
  lemma AllocateBothLoops(s: Session, budget: nat)
    requires budget >= 4
    ensures var base := s.nextAddr;
            var w, h := s.params.sourceWidth, s.params.sourceHeight;
            var storage := Resize(s.inputStorage, 1);
            var inputs := [InputEntry(base, 4, w, h)];
            var streams := [StreamEntry(base + 1, if budget >= 5 then 1 else 0, w, h)];
      AllocateSpec(s, budget)
      == AllocStep(budget >= 5, s.(params := s.params.(inputOutputBufferFifoInitCount := 1), inputPool := inputs,
                                   inputStorage := storage, streamPool := streams,
                                   freeInputBuffers := s.freeInputBuffers + [storage.base],
                                   nextAddr := base + 2, heap := s.heap + PoolHeap(inputs, streams, w, h)))
  {
    var base := s.nextAddr;
    var w, h := s.params.sourceWidth, s.params.sourceHeight;
    var inputs := [InputEntry(base, 4, w, h)];
    var streams := [StreamEntry(base + 1, if budget >= 5 then 1 else 0, w, h)];
    assert AllocatedInputs(base, 1, budget, w, h) == inputs;
    assert AllocatedStreams(base, 1, budget, w, h) == streams;
    var slots := Resize(s.inputStorage, 1).base;
    assert SlotRange(slots, 1) == [slots];
    var heap1 := s.heap + PoolHeap(inputs, [], w, h);
    AllocateInputPhase(base, slots, w, h, budget, s.freeInputBuffers, s.heap);
    AllocateStreamPhase(base, w, h, budget, heap1);
    PoolHeapUnion(inputs, streams, w, h);
    HeapAssoc(s.heap, PoolHeap(inputs, [], w, h), PoolHeap([], streams, w, h));
    AllocateSpecBothPhases(s, budget, inputs, s.freeInputBuffers + [slots], heap1, budget - 4, budget >= 5,
                           streams, s.heap + PoolHeap(inputs, streams, w, h));
  }

  /** `allocateBuffers` when the input header is finished. */
  lemma AllocateInputsDone(s: Session, budget: nat)
    requires s.streamPool == [] && budget >= 4
    ensures AllocateSpec(s, budget) == AllocateResult(s, budget)
  {
    AllocateBothLoops(s, budget);
  }

  /** `allocateBuffers` from an empty output pool, in closed form. */
  lemma AllocateClosedForm(s: Session, budget: nat)
    requires s.streamPool == []
    ensures AllocateSpec(s, budget) == AllocateResult(s, budget)
  {
    if budget >= 4 {
      AllocateInputsDone(s, budget);
    } else {
      AllocateInputsFail(s, budget);
    }
  }

  /** The `uint32_t` sizes of a `w`x`h` stream are exact while `w*h*3`
      fits in 32 bits. */
  lemma SizesExact(w: u32, h: u32, luma: nat)
    requires luma == w * h && luma * 3 < Modulus
    ensures LumaSize(w, h) == luma && ChromaSize(w, h) == luma / 4
    ensures InputAllocLen(w, h) == luma + 2 * (luma / 4)
    ensures OutputSize(w, h) == luma * 3 / 2
  {
    MulExact(w, h);
    MulExact(luma, 3);
  }

  /** The buffers `allocateBuffers` sets up for a `w`x`h` stream, in plain
      arithmetic while `w*h*3` fits in `uint32_t`: a luma plane of `w*h`
      bytes, chroma planes of a quarter of that, the input header's
      `nAllocLen` their sum, strides `w` and `w/2`, a bitstream buffer of
      `w*h*3/2` bytes, and both headers tagged `INVALID_SLICE`. */
  lemma BufferLayout(a: Addr, w: u32, h: u32, luma: nat)
    requires luma == w * h && luma * 3 < Modulus
    ensures var e := InputEntry(a, 4, w, h);
            var o := StreamEntry(a + 1, 1, w, h);
      && e.input.yStride == w && e.input.cbStride == w / 2 && e.input.crStride == w / 2
      && e.nAllocLen == luma + 2 * (luma / 4)
      && e.sliceType == InvalidSlice && o.sliceType == InvalidSlice
      && o.nAllocLen == luma * 3 / 2
      && PoolHeap([e], [o], w, h)
         == map[Block(a, HeaderStorage) := SizeOfEncInput, Block(a, LumaPlane) := Bytes(luma),
                Block(a, CbPlane) := Bytes(luma / 4), Block(a, CrPlane) := Bytes(luma / 4),
                Block(a + 1, Bitstream) := Bytes(luma * 3 / 2)]
  {
    SizesExact(w, h, luma);
    var e := InputEntry(a, 4, w, h);
    var o := StreamEntry(a + 1, 1, w, h);
    var m := map[Block(a, HeaderStorage) := SizeOfEncInput, Block(a, LumaPlane) := Bytes(luma),
                 Block(a, CbPlane) := Bytes(luma / 4), Block(a, CrPlane) := Bytes(luma / 4),
                 Block(a + 1, Bitstream) := Bytes(luma * 3 / 2)];
    var inputs, streams := [e], [o];
    PoolHeapKeys(inputs, streams, w, h);
    assert PoolRefs(inputs, streams) == InputRefs(inputs[0]) + StreamRefs(streams[0]);
    assert PoolHeap([e], [o], w, h).Keys == m.Keys;
    forall b | b in m.Keys
      ensures PoolHeap([e], [o], w, h)[b] == m[b]
    {
    }
  }
}
