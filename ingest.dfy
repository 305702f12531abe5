// What `onFrame` guarantees: which frames are dropped without a trace, how a
// key-frame request is honoured exactly once, what reaches the destination,
// and that the session invariant survives every branch.

module IngestFacts {
  import opened Opt
  import opened Uint32
  import opened EncoderParams
  import opened BufferPool
  import opened BufferPoolFacts
  import opened EncoderSpec
  import opened LifecycleFacts

  /** Tagging a header changes nothing but its slice type. */
  lemma TagBufferKeeps(pool: seq<InputHeader>, base: Slot, slot: Slot, tag: SliceType)
    ensures |TagBuffer(pool, base, slot, tag)| == |pool|
    ensures forall i :: 0 <= i < |pool| ==>
      TagBuffer(pool, base, slot, tag)[i].(sliceType := pool[i].sliceType) == pool[i]
    ensures InputPoolRefs(TagBuffer(pool, base, slot, tag)) == InputPoolRefs(pool)
  {
    var t := TagBuffer(pool, base, slot, tag);
    forall i | 0 <= i < |pool|
      ensures InputRefs(t[i]) == InputRefs(pool[i])
    {
    }
  }

  /** The header living at `slot`, if the pool has one there, carries the
      tag; every other header keeps its own. */
  lemma TagBufferTags(pool: seq<InputHeader>, base: Slot, slot: Slot, tag: SliceType, i: nat)
    requires i < |pool|
    ensures TagBuffer(pool, base, slot, tag)[i].sliceType == if base + i == slot then tag else pool[i].sliceType
  {
  }

  /** Only I420 frames are converted; a frame of exactly the configured size
      is copied and any other size is scaled (a width or height read back
      through `uint32_t` that lands on the configured one also counts as
      that size); the conversion succeeds exactly when the call made
      returns 0. */
  lemma ConvertChoosesCall(frame: Frame, p: EncParams, copyResult: int, scaleResult: int)
    ensures var c := Convert(frame, p, copyResult, scaleResult);
      && (c.Unsupported? <==> frame.format != FormatI420)
      && (!c.Unsupported? && 0 <= frame.width < Modulus && 0 <= frame.height < Modulus ==>
            (c.path == CopyPath <==> frame.width == p.sourceWidth && frame.height == p.sourceHeight))
      && (c.Converted? <==>
            frame.format == FormatI420 && (if c.path == CopyPath then copyResult else scaleResult) == 0)
  {
  }

  /** A frame that is dropped before reaching the engine leaves the encoder
      exactly as it was. */
  lemma OnFrameDropLeavesState(s: Session, frame: Frame, copyResult: int, scaleResult: int,
                               send: EbStatus, poll: EbStatus, packet: Packet)
    requires CanIngest(s, poll)
    ensures var r := OnFrameSpec(s, frame, copyResult, scaleResult, send, poll, packet);
      !Submitted(r.outcome) ==> r.after == s
  {
  }

  /** A picture reaches the engine exactly when the encoder is ready, the free
      queue is not empty and the frame converts; it is the header at the front
      of the queue, tagged IDR exactly when a key frame was requested, and the
      request is then consumed. The queue itself is never popped. */
  lemma OnFrameSubmits(s: Session, frame: Frame, copyResult: int, scaleResult: int,
                       send: EbStatus, poll: EbStatus, packet: Packet)
    requires CanIngest(s, poll)
    ensures var r := OnFrameSpec(s, frame, copyResult, scaleResult, send, poll, packet);
      && (Submitted(r.outcome) <==>
            s.ready && |s.freeInputBuffers| > 0 && Convert(frame, s.params, copyResult, scaleResult).Converted?)
      && r.after.freeInputBuffers == s.freeInputBuffers
      && (Submitted(r.outcome) ==>
            && r.after.sent == s.sent + [Picture(s.freeInputBuffers[0], if s.forceIdr then IdrSlice else InvalidSlice,
                                                 send == EbErrorNone)]
            && !r.after.forceIdr)
      && (!Submitted(r.outcome) ==> r.after.sent == s.sent && r.after.forceIdr == s.forceIdr)
  {
  }

  /** A frame is delivered exactly when the picture went in, the engine
      accepted it and the poll returned a packet. The delivered frame is the
      output header's packet, stamped with the running frame count in 90 kHz
      units and marked a key frame exactly when the engine reported an IDR
      slice; it is appended to what the destination received, and the frame
      count advances by one. */
  lemma OnFrameDelivers(s: Session, frame: Frame, copyResult: int, scaleResult: int,
                        send: EbStatus, poll: EbStatus, packet: Packet)
    requires CanIngest(s, poll)
    ensures var r := OnFrameSpec(s, frame, copyResult, scaleResult, send, poll, packet);
      && (r.outcome.Delivered? <==>
            && Submitted(r.outcome) && send == EbErrorNone
            && poll != EbErrorMax && poll != EbNoErrorEmptyQueue)
      && (r.outcome.Delivered? ==>
            var out := r.outcome.frame;
            && out.format == FormatH265
            && out.payload == s.streamPool[0].pBuffer
            && out.offset == packet.nOffset && out.length == packet.nFilledLen
            && out.timeStamp == Timestamp(s.frameCount, s.params.frameRate)
            && out.width == s.params.sourceWidth && out.height == s.params.sourceHeight
            && (out.isKeyFrame <==> packet.sliceType == IdrSlice)
            && r.after.delivered == s.delivered + [out]
            && r.after.frameCount == s.frameCount + 1)
      && (!r.outcome.Delivered? ==> r.after.delivered == s.delivered && r.after.frameCount == s.frameCount)
  {
  }

  /** After `requestKeyFrame`, the next picture submitted is tagged IDR; frames
      dropped before it keep the request pending. */
  lemma KeyFrameRequestHonoured(s: Session, frame: Frame, copyResult: int, scaleResult: int,
                                send: EbStatus, poll: EbStatus, packet: Packet)
    requires CanIngest(s, poll)
    ensures var r := OnFrameSpec(RequestKeyFrameSpec(s), frame, copyResult, scaleResult, send, poll, packet);
      && (Submitted(r.outcome) ==> r.after.sent[|r.after.sent| - 1].sliceType == IdrSlice && !r.after.forceIdr)
      && (!Submitted(r.outcome) ==> r.after.forceIdr)
  {
    OnFrameSubmits(RequestKeyFrameSpec(s), frame, copyResult, scaleResult, send, poll, packet);
  }

  /** Tagging the header at the front of the free queue keeps the invariant. */
  lemma TaggedKeepsInv(s: Session, send: EbStatus)
    requires Inv(s) && |s.freeInputBuffers| > 0
    ensures Inv(TagFrontSpec(s, send))
  {
    var front := s.freeInputBuffers[0];
    var tag := if s.forceIdr then IdrSlice else InvalidSlice;
    var pool := TagBuffer(s.inputPool, s.inputStorage.base, front, tag);
    TagBufferKeeps(s.inputPool, s.inputStorage.base, front, tag);
    if s.ready {
      assert pool[0].(sliceType := InvalidSlice) == s.inputPool[0].(sliceType := InvalidSlice);
    }
  }

  /** What the engine's poll writes into the output header, and handing the
      packet on, keep the invariant. */
  lemma PolledKeepsInv(s: Session, path: ConvertPath, poll: EbStatus, packet: Packet)
    requires Inv(s) && s.ready && CanIngest(s, poll)
    ensures Inv(PollSpec(s, path, poll, packet).after)
  {
    var e := s.streamPool[0];
    var streams := s.streamPool[0 := e.(nFilledLen := packet.nFilledLen, nOffset := packet.nOffset,
                                         sliceType := packet.sliceType)];
    assert StreamPoolRefs(streams) == StreamPoolRefs(s.streamPool) by {
      assert StreamRefs(streams[0]) == StreamRefs(e);
    }
  }

  /** A picture that reaches the engine is the live input header: the slot
      sent is where the pool's one header lives, and that header, with its
      blocks unchanged, carries the picture's tag. */
  lemma OnFrameTagsLiveHeader(s: Session, frame: Frame, copyResult: int, scaleResult: int,
                              send: EbStatus, poll: EbStatus, packet: Packet)
    requires Inv(s) && CanIngest(s, poll)
    ensures var r := OnFrameSpec(s, frame, copyResult, scaleResult, send, poll, packet);
            var tag := if s.forceIdr then IdrSlice else InvalidSlice;
      Submitted(r.outcome) ==>
        && r.after.sent == s.sent + [Picture(s.inputStorage.base, tag, send == EbErrorNone)]
        && r.after.inputPool == [s.inputPool[0].(sliceType := tag)]
  {
    if s.ready && |s.freeInputBuffers| > 0 {
      ReadyQueueNamesLiveHeader(s);
      OnFrameSubmits(s, frame, copyResult, scaleResult, send, poll, packet);
    }
  }

  /** `onFrame` keeps the session invariant: tagging the input header and
      filling the output header change no block the pools refer to. */
  lemma OnFrameKeepsInv(s: Session, frame: Frame, copyResult: int, scaleResult: int,
                        send: EbStatus, poll: EbStatus, packet: Packet)
    requires Inv(s) && CanIngest(s, poll)
    ensures Inv(OnFrameSpec(s, frame, copyResult, scaleResult, send, poll, packet).after)
  {
    if s.ready && |s.freeInputBuffers| > 0 {
      match Convert(frame, s.params, copyResult, scaleResult)
      case Converted(path) =>
        TaggedKeepsInv(s, send);
        if send == EbErrorNone {
          PolledKeepsInv(TagFrontSpec(s, send), path, poll, packet);
        }
      case _ =>
    }
  }

  /** The 90 kHz timestamp of frame `n` misses the exact `n / frameRate`
      seconds by less than one millisecond (90 ticks), always rounding down. */
  lemma TimestampWithinOneMillisecond(n: nat, frameRate: u32)
    requires frameRate > 0
    ensures Timestamp(n, frameRate) * frameRate <= n * 90000 < (Timestamp(n, frameRate) + 90) * frameRate
  {
    var q := n * 1000 / frameRate;
    assert q * frameRate <= n * 1000 < (q + 1) * frameRate;
    calc {
      Timestamp(n, frameRate) * frameRate;
      == q * 90 * frameRate;
      == 90 * (q * frameRate);
      <= 90 * (n * 1000);
    }
    calc {
      n * 90000;
      == 90 * (n * 1000);
      < 90 * ((q + 1) * frameRate);
      == (q * 90 + 90) * frameRate;
    }
  }

  /** Later frames never get earlier timestamps. */
  lemma TimestampMonotone(n: nat, m: nat, frameRate: u32)
    requires frameRate > 0 && n <= m
    ensures Timestamp(n, frameRate) <= Timestamp(m, frameRate)
  {
    var qn, qm := n * 1000 / frameRate, m * 1000 / frameRate;
    assert qn * frameRate <= n * 1000;
    assert m * 1000 < (qm + 1) * frameRate;
    if qn > qm {
      MulMonotone(qm + 1, qn, frameRate);
      assert false;
    }
  }

  lemma MulMonotone(x: int, y: int, r: nat)
    requires x <= y
    ensures x * r <= y * r
  {
  }

  /** At 30 frames per second, one second of frames is 90000 ticks, but the
      first frame after the start is stamped 2970 rather than 3000: the
      millisecond count is truncated before scaling. */
  lemma TimestampAt30Fps()
    ensures Timestamp(30, 30) == 90000
    ensures Timestamp(1, 30) == 2970
  {
  }
}
