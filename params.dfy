// The part of the SVT-HEVC configuration record (`EB_H265_ENC_CONFIGURATION`)
// that the adapter itself computes: the per-stream overlay of
// `updateParameters` and the fields `allocateBuffers` and the packet drain
// read back. The remaining ~45 tuning fields only ever receive constants; they
// are summarised by `Tuning`.

module EncoderParams {
  import opened Uint32

  /** The tuning fields as a whole: all zero (after the constructor's memset) or
      the fixed table of `initDefaultParameters`. */
  datatype Tuning = ZeroedTuning | DefaultTuning

  datatype EncParams = EncParams(
    sourceWidth: u32,
    sourceHeight: u32,
    intraPeriodLength: int,   // EB_S32 in the SDK; the adapter keeps it within [0, 255]
    frameRate: u32,
    injectorFrameRate: u32,
    targetBitRate: u32,
    inputOutputBufferFifoInitCount: u32,
    tuning: Tuning)

  /** Largest intra period the adapter configures. */
  const MaxIntraPeriod: int := 255

  /** The record after the constructor's memset. */
  function ZeroParams(): EncParams
  {
    EncParams(0, 0, 0, 0, 0, 0, 0, ZeroedTuning)
  }

  /** The record after `initDefaultParameters`; `injectorFrameRate` is
      `frameRate << 16` with the default frame rate 0. */
  function DefaultParams(): EncParams
  {
    EncParams(0, 0, MaxIntraPeriod, 0, ShiftLeft16(0), 0, 0, DefaultTuning)
  }

  /** The intra period for a key-frame interval of `product` frames:
      the product itself up to the clamp, and the clamp beyond it. */
  function ClampIntraPeriod(product: u32): (r: int)
    ensures 0 <= r <= MaxIntraPeriod && r <= product
    ensures r == product || r == MaxIntraPeriod
  {
    if product < MaxIntraPeriod then product else MaxIntraPeriod
  }

  /** `updateParameters`: the caller's resolution, frame rate, bit rate and
      key-frame interval laid over `p`. */
  function Overlay(p: EncParams, width: u32, height: u32, frameRate: u32,
                   bitrateKbps: u32, keyFrameIntervalSeconds: u32): EncParams
  {
    p.(sourceWidth := width,
       sourceHeight := height,
       intraPeriodLength := ClampIntraPeriod(Mul(keyFrameIntervalSeconds, frameRate)),
       frameRate := frameRate,
       injectorFrameRate := ShiftLeft16(frameRate),
       targetBitRate := Mul(bitrateKbps, 1000))
  }
}

module ParamsFacts {
  import opened Uint32
  import opened EncoderParams

  /** The intra period follows the key-frame interval in frames up to 255
      and is clamped there, as long as the `uint32_t` product does not
      overflow; an overflowing product wraps before it is clamped. */
  lemma IntraPeriodFromInterval(p: EncParams, width: u32, height: u32, frameRate: u32, bitrateKbps: u32,
                                keyFrameIntervalSeconds: u32)
    ensures var product := keyFrameIntervalSeconds * frameRate;
            var q := Overlay(p, width, height, frameRate, bitrateKbps, keyFrameIntervalSeconds);
      && (product < MaxIntraPeriod ==> q.intraPeriodLength == product)
      && (MaxIntraPeriod <= product < Modulus ==> q.intraPeriodLength == MaxIntraPeriod)
      && q.intraPeriodLength == ClampIntraPeriod(product % Modulus)
  {
    var product := keyFrameIntervalSeconds * frameRate;
    if product < Modulus {
      MulExact(keyFrameIntervalSeconds, frameRate);
    }
  }

  /** The bit rate is the caller's kbps times 1000, wrapped to `uint32_t`,
      so exact unless that overflows; the injector rate holds the low 16 bits
      of the frame rate in its upper 16 bits, so all of it below 65536 fps. */
  lemma RatesFromSettings(p: EncParams, width: u32, height: u32, frameRate: u32, bitrateKbps: u32,
                          keyFrameIntervalSeconds: u32)
    ensures var q := Overlay(p, width, height, frameRate, bitrateKbps, keyFrameIntervalSeconds);
      && q.targetBitRate == (bitrateKbps * 1000) % Modulus
      && q.injectorFrameRate == (frameRate % 0x1_0000) * 0x1_0000
      && (bitrateKbps * 1000 < Modulus ==> q.targetBitRate == bitrateKbps * 1000)
      && (frameRate < 0x1_0000 ==> q.injectorFrameRate == frameRate * 0x1_0000 && q.injectorFrameRate / 0x1_0000 == frameRate)
      && q.injectorFrameRate % 0x1_0000 == 0
      && q.sourceWidth == width && q.sourceHeight == height && q.frameRate == frameRate
      && q.inputOutputBufferFifoInitCount == p.inputOutputBufferFifoInitCount && q.tuning == p.tuning
  {
    if bitrateKbps * 1000 < Modulus {
      MulExact(bitrateKbps, 1000);
    }
  }

  /** A 1080p stream at 30 fps, 2 Mbit/s and a two-second key-frame
      interval: 60-frame GOPs and the rate in 16.16 fixed point. */
  lemma Overlay1080p30()
    ensures Overlay(DefaultParams(), 1920, 1080, 30, 2000, 2)
         == EncParams(1920, 1080, 60, 30, 1966080, 2000000, 0, DefaultTuning)
  {
    MulExact(2, 30);
    MulExact(2000, 1000);
  }

  /** Key-frame intervals that overflow the product: 65536 seconds at 65536
      fps multiply to 2^32, which wraps to an intra period of 0. */
  lemma IntraPeriodOverflow()
    ensures Overlay(DefaultParams(), 0, 0, 0x1_0000, 0, 0x1_0000).intraPeriodLength == 0
  {
  }
}
