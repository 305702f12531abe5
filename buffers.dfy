// Buffer headers of the two pools and the memory they own.
//
// Memory is modelled by identity, not content: every block the adapter
// allocates is named by the header that owns it and the part it plays, and
// a ghost heap maps each live block to the size it was allocated with. Every
// header instance gets a fresh identity from the encoder's supply, so blocks of
// different headers never coincide. Where a header lives is a separate matter:
// a slot of its pool's storage, which `resize` keeps while the headers fit.

module BufferPool {
  import opened Opt
  import opened Uint32

  /** The identity of a header instance, which names the blocks allocated
      for it. */
  type Addr = nat

  datatype Part = HeaderStorage | LumaPlane | CbPlane | CrPlane | Bitstream

  /** A block returned by `malloc`/`calloc`. */
  datatype Block = Block(owner: Addr, part: Part)

  /** Byte size a block was allocated with. */
  datatype Size = Bytes(n: nat) | SizeOfEncInput

  /** Slice type tag of a header: the two the adapter writes, and every other
      slice type, which the adapter never tells apart (among them the zero a
      `memset` header holds, `B_SLICE`). */
  datatype SliceType = IdrSlice | InvalidSlice | OtherSlice

  const ZeroSlice: SliceType := OtherSlice

  /** `EB_H265_ENC_INPUT`: the three plane pointers and their strides. */
  datatype EncInput = EncInput(luma: Option<Block>, cb: Option<Block>, cr: Option<Block>,
                               yStride: u32, cbStride: u32, crStride: u32)

  const ZeroInput: EncInput := EncInput(None, None, None, 0, 0, 0)

  /** An input `EB_BUFFERHEADERTYPE`; `pBuffer` holds the `EB_H265_ENC_INPUT`.
      `id` names this header instance: every `resize` of the pool creates new
      instances, and the blocks allocated for one are named by its `id`. Where
      the header lives is given by the pool's `Storage`, not by `id`. */
  datatype InputHeader = InputHeader(id: Addr, pBuffer: Option<Block>, input: EncInput,
                                     nAllocLen: u32, sliceType: SliceType)

  /** An output (bitstream) `EB_BUFFERHEADERTYPE`. */
  datatype StreamHeader = StreamHeader(id: Addr, pBuffer: Option<Block>, nAllocLen: u32,
                                       nFilledLen: u32, nOffset: u32, sliceType: SliceType)

  /** An address in a pool vector's storage, where a header lives. */
  type Slot = nat

  /** The storage of a pool vector: where its first header lives and how many
      headers fit. Header `i` of the pool lives at slot `base + i`. */
  datatype Storage = Storage(base: Slot, capacity: nat)

  /** A vector that never held a header. */
  const NoStorage: Storage := Storage(0, 0)

  /** The storage after `resize(n)`: kept when `n` headers fit, otherwise
      replaced by storage for `n` headers past every slot used so far.
      Shrinking never gives storage back. */
  function Resize(st: Storage, n: nat): (r: Storage)
    ensures n <= st.capacity ==> r == st
    ensures n > st.capacity ==> r.capacity == n && r.base >= st.base + st.capacity
  {
    if n <= st.capacity then st else Storage(st.base + st.capacity, n)
  }

  /** Number of input and of output buffers allocated per stream. */
  const BufferCount: u32 := 1

  /** `luma8bitSize`: the product is taken in `uint32_t`, then widened. */
  function LumaSize(w: u32, h: u32): u32
  {
    Mul(w, h)
  }

  /** `chroma8bitSize = luma8bitSize >> 2`. */
  function ChromaSize(w: u32, h: u32): u32
  {
    LumaSize(w, h) / 4
  }

  /** `nAllocLen` of an input header: luma plus both chroma planes, stored in
      the header's 32-bit field. */
  function InputAllocLen(w: u32, h: u32): u32
  {
    Wrap(LumaSize(w, h) + 2 * ChromaSize(w, h))
  }

  /** `outputStreamBufferSize = w * h * 3 / 2`, all in `uint32_t`. */
  function OutputSize(w: u32, h: u32): u32
  {
    Mul(Mul(w, h), 3) / 2
  }

  /** The size each kind of block is allocated with for a `w`x`h` stream. */
  function PartSize(part: Part, w: u32, h: u32): Size
  {
    match part
    case HeaderStorage => SizeOfEncInput
    case LumaPlane => Bytes(LumaSize(w, h))
    case CbPlane => Bytes(ChromaSize(w, h))
    case CrPlane => Bytes(ChromaSize(w, h))
    case Bitstream => Bytes(OutputSize(w, h))
  }

  function BlockIf(cond: bool, b: Block): Option<Block>
  {
    if cond then Some(b) else None
  }

  /** The input header at `id` once the first `k` of its four allocations
      (header storage, luma, cb, cr) have succeeded; with all four it is the
      finished entry, tagged `INVALID_SLICE`. */
  function InputEntry(id: Addr, k: nat, w: u32, h: u32): (e: InputHeader)
    requires k <= 4
    ensures e.id == id
  {
    if k == 0 then InputHeader(id, None, ZeroInput, 0, ZeroSlice)
    else if k < 4 then
      InputHeader(id, Some(Block(id, HeaderStorage)),
                  ZeroInput.(luma := BlockIf(k >= 2, Block(id, LumaPlane)),
                             cb := BlockIf(k >= 3, Block(id, CbPlane))),
                  0, ZeroSlice)
    else
      InputHeader(id, Some(Block(id, HeaderStorage)),
                  EncInput(Some(Block(id, LumaPlane)), Some(Block(id, CbPlane)),
                           Some(Block(id, CrPlane)), w, w / 2, w / 2),
                  InputAllocLen(w, h), InvalidSlice)
  }

  /** The output header at `id` after `k` (0 or 1) successful allocations. */
  function StreamEntry(id: Addr, k: nat, w: u32, h: u32): (e: StreamHeader)
    requires k <= 1
    ensures e.id == id
  {
    if k == 0 then StreamHeader(id, None, 0, 0, 0, ZeroSlice)
    else StreamHeader(id, Some(Block(id, Bitstream)), OutputSize(w, h), 0, 0, InvalidSlice)
  }

  /** An input header whose allocations all succeeded, whatever its tag. */
  predicate InputComplete(e: InputHeader, w: u32, h: u32)
  {
    e.(sliceType := InvalidSlice) == InputEntry(e.id, 4, w, h)
  }

  /** An output header whose allocation succeeded, whatever the engine wrote into it. */
  predicate StreamComplete(e: StreamHeader, w: u32, h: u32)
  {
    e.pBuffer == Some(Block(e.id, Bitstream)) && e.nAllocLen == OutputSize(w, h)
  }

  function OptSet(o: Option<Block>): set<Block>
  {
    if o.Some? then {o.value} else {}
  }

  /** Blocks an input header refers to: its header storage and, through it, the planes. */
  function InputRefs(e: InputHeader): set<Block>
  {
    if e.pBuffer.None? then {}
    else {e.pBuffer.value} + OptSet(e.input.luma) + OptSet(e.input.cb) + OptSet(e.input.cr)
  }

  function StreamRefs(e: StreamHeader): set<Block>
  {
    OptSet(e.pBuffer)
  }

  function InputPoolRefs(pool: seq<InputHeader>): set<Block>
  {
    set i, b | 0 <= i < |pool| && b in InputRefs(pool[i]) :: b
  }

  function StreamPoolRefs(pool: seq<StreamHeader>): set<Block>
  {
    set i, b | 0 <= i < |pool| && b in StreamRefs(pool[i]) :: b
  }

  /** Every block either pool refers to. */
  function PoolRefs(inputs: seq<InputHeader>, streams: seq<StreamHeader>): set<Block>
  {
    InputPoolRefs(inputs) + StreamPoolRefs(streams)
  }

  /** The heap the pools account for: each referenced block with its size. */
  function PoolHeap(inputs: seq<InputHeader>, streams: seq<StreamHeader>, w: u32, h: u32): map<Block, Size>
  {
    map b | b in PoolRefs(inputs, streams) :: PartSize(b.part, w, h)
  }

  /** A header's pointers point only at blocks it owns, each in its own role. */
  predicate InputWellFormed(e: InputHeader)
  {
    && (e.pBuffer.None? || e.pBuffer.value == Block(e.id, HeaderStorage))
    && (e.input.luma.None? || e.input.luma.value == Block(e.id, LumaPlane))
    && (e.input.cb.None? || e.input.cb.value == Block(e.id, CbPlane))
    && (e.input.cr.None? || e.input.cr.value == Block(e.id, CrPlane))
  }

  predicate StreamWellFormed(e: StreamHeader)
  {
    e.pBuffer.None? || e.pBuffer.value == Block(e.id, Bitstream)
  }

  /** Both pools hold well-formed headers with pairwise distinct identities. */
  predicate PoolsWellFormed(inputs: seq<InputHeader>, streams: seq<StreamHeader>)
  {
    && (forall i :: 0 <= i < |inputs| ==> InputWellFormed(inputs[i]))
    && (forall j :: 0 <= j < |streams| ==> StreamWellFormed(streams[j]))
    && (forall i, j :: 0 <= i < j < |inputs| ==> inputs[i].id != inputs[j].id)
    && (forall i, j :: 0 <= i < j < |streams| ==> streams[i].id != streams[j].id)
    && (forall i, j :: 0 <= i < |inputs| && 0 <= j < |streams| ==> inputs[i].id != streams[j].id)
  }

}

// Facts about the blocks the pools refer to, used by the allocation and
// deallocation loops.
module BufferPoolFacts {
  import opened Opt
  import opened Uint32
  import opened BufferPool

  /** Every block an input header refers to is owned by that header. */
  lemma InputRefsOwned(e: InputHeader, b: Block)
    requires InputWellFormed(e) && b in InputRefs(e)
    ensures b.owner == e.id
  {
  }

  lemma InputPrefixRefs(pool: seq<InputHeader>, i: nat)
    requires i < |pool|
    ensures InputPoolRefs(pool[..i + 1]) == InputPoolRefs(pool[..i]) + InputRefs(pool[i])
  {
    var p, q := pool[..i + 1], pool[..i];
    forall b | b in InputPoolRefs(p)
      ensures b in InputPoolRefs(q) + InputRefs(pool[i])
    {
      var j :| 0 <= j < |p| && b in InputRefs(p[j]);
      if j < i { assert q[j] == p[j]; }
    }
    forall b | b in InputPoolRefs(q) + InputRefs(pool[i])
      ensures b in InputPoolRefs(p)
    {
      if b in InputRefs(pool[i]) {
        assert p[i] == pool[i];
      } else {
        var j :| 0 <= j < |q| && b in InputRefs(q[j]);
        assert p[j] == q[j];
      }
    }
  }

  lemma StreamPrefixRefs(pool: seq<StreamHeader>, i: nat)
    requires i < |pool|
    ensures StreamPoolRefs(pool[..i + 1]) == StreamPoolRefs(pool[..i]) + StreamRefs(pool[i])
  {
    var p, q := pool[..i + 1], pool[..i];
    forall b | b in StreamPoolRefs(p)
      ensures b in StreamPoolRefs(q) + StreamRefs(pool[i])
    {
      var j :| 0 <= j < |p| && b in StreamRefs(p[j]);
      if j < i { assert q[j] == p[j]; }
    }
    forall b | b in StreamPoolRefs(q) + StreamRefs(pool[i])
      ensures b in StreamPoolRefs(p)
    {
      if b in StreamRefs(pool[i]) {
        assert p[i] == pool[i];
      } else {
        var j :| 0 <= j < |q| && b in StreamRefs(q[j]);
        assert p[j] == q[j];
      }
    }
  }

  /** Header `i` shares no block with the headers before it. */
  lemma InputPrefixDisjoint(pool: seq<InputHeader>, i: nat)
    requires i < |pool|
    requires forall k :: 0 <= k < |pool| ==> InputWellFormed(pool[k])
    requires forall k, l :: 0 <= k < l < |pool| ==> pool[k].id != pool[l].id
    ensures InputRefs(pool[i]) !! InputPoolRefs(pool[..i])
  {
    forall b | b in InputRefs(pool[i]) && b in InputPoolRefs(pool[..i])
      ensures false
    {
      var j :| 0 <= j < i && b in InputRefs(pool[..i][j]);
      InputRefsOwned(pool[i], b);
      InputRefsOwned(pool[j], b);
    }
  }

  lemma StreamPrefixDisjoint(pool: seq<StreamHeader>, i: nat)
    requires i < |pool|
    requires forall k :: 0 <= k < |pool| ==> StreamWellFormed(pool[k])
    requires forall k, l :: 0 <= k < l < |pool| ==> pool[k].id != pool[l].id
    ensures StreamRefs(pool[i]) !! StreamPoolRefs(pool[..i])
  {
  }

  /** The heap the pools account for holds exactly the blocks they refer to. */
  lemma PoolHeapKeys(inputs: seq<InputHeader>, streams: seq<StreamHeader>, w: u32, h: u32)
    ensures PoolHeap(inputs, streams, w, h).Keys == PoolRefs(inputs, streams)
  {
  }

  /** Input blocks are never bitstream buffers, so the two pools' blocks are
      disjoint. */
  lemma PoolRefsSplit(inputs: seq<InputHeader>, streams: seq<StreamHeader>)
    requires PoolsWellFormed(inputs, streams)
    ensures InputPoolRefs(inputs) !! StreamPoolRefs(streams)
  {
    forall b | b in StreamPoolRefs(streams)
      ensures b !in InputPoolRefs(inputs)
    {
      var j :| 0 <= j < |streams| && b in StreamRefs(streams[j]);
      assert b.part == Bitstream;
    }
  }

  /** Replacing header `i` by one that refers to `extra` blocks more adds exactly those. */
  lemma InputRefsGrow(pool: seq<InputHeader>, i: nat, e: InputHeader, extra: set<Block>)
    requires i < |pool|
    requires InputRefs(e) == InputRefs(pool[i]) + extra
    ensures InputPoolRefs(pool[i := e]) == InputPoolRefs(pool) + extra
  {
    var p := pool[i := e];
    forall b | b in InputPoolRefs(p)
      ensures b in InputPoolRefs(pool) + extra
    {
      var j :| 0 <= j < |p| && b in InputRefs(p[j]);
      if j == i && b !in extra { assert b in InputRefs(pool[i]); }
    }
    forall b | b in InputPoolRefs(pool) + extra
      ensures b in InputPoolRefs(p)
    {
      if b in extra {
        assert b in InputRefs(p[i]);
      } else {
        var j :| 0 <= j < |pool| && b in InputRefs(pool[j]);
        assert b in InputRefs(p[j]);
      }
    }
  }

  lemma StreamRefsGrow(pool: seq<StreamHeader>, i: nat, e: StreamHeader, extra: set<Block>)
    requires i < |pool|
    requires StreamRefs(e) == StreamRefs(pool[i]) + extra
    ensures StreamPoolRefs(pool[i := e]) == StreamPoolRefs(pool) + extra
  {
    var p := pool[i := e];
    forall b | b in StreamPoolRefs(p)
      ensures b in StreamPoolRefs(pool) + extra
    {
      var j :| 0 <= j < |p| && b in StreamRefs(p[j]);
      if j == i && b !in extra { assert b in StreamRefs(pool[i]); }
    }
    forall b | b in StreamPoolRefs(pool) + extra
      ensures b in StreamPoolRefs(p)
    {
      if b in extra {
        assert b in StreamRefs(p[i]);
      } else {
        var j :| 0 <= j < |pool| && b in StreamRefs(pool[j]);
        assert b in StreamRefs(p[j]);
      }
    }
  }
}
