/**
 * How the Format and Fact chunks of a WAVE file are merged into the codec
 * parameters of its stream (`append_format_params`, `append_fact_params`).
 */
module WavParams {
  import opened SonataCore
  import opened WavChunks

  /** Every WAVE stream advertises packets of at most this many frames. */
  const WAVE_MAX_FRAMES_PER_PACKET: u64 := 4096

  /** True of the sub-formats whose Format chunk fixes the bit depths. */
  predicate SetsBitDepth(d: WaveFormatData) {
    d.Pcm? || d.Extensible?
  }

  /**
   * Merges a parsed Format chunk into `p`. Whatever the sub-format, the
   * packet size, sample rate, codec and channels are overwritten; PCM sets
   * both bit depths to its one depth, Extensible sets them from its two
   * fields, and IEEE float, A-law and mu-law leave both bit depths as they
   * were. The frame count is never touched.
   */
  function AppendFormatParams(p: CodecParameters, format: WaveFormatChunk): (r: CodecParameters)
    ensures r.maxFramesPerPacket == Some(WAVE_MAX_FRAMES_PER_PACKET)
    ensures r.sampleRate == Some(format.sampleRate)
    ensures r.codec == Some(format.formatData.codec)
    ensures r.channels == Some(format.formatData.channels)
    ensures r.nFrames == p.nFrames
    ensures format.formatData.Pcm? ==>
      r.bitsPerSample == Some(format.formatData.bitsPerSample) &&
      r.bitsPerCodedSample == Some(format.formatData.bitsPerSample)
    ensures format.formatData.Extensible? ==>
      r.bitsPerSample == Some(format.formatData.bitsPerSample) &&
      r.bitsPerCodedSample == Some(format.formatData.bitsPerCodedSample)
    ensures !SetsBitDepth(format.formatData) ==>
      r.bitsPerSample == p.bitsPerSample && r.bitsPerCodedSample == p.bitsPerCodedSample
  {
    var common := p.(maxFramesPerPacket := Some(WAVE_MAX_FRAMES_PER_PACKET),
                     sampleRate := Some(format.sampleRate));
    match format.formatData
    case Pcm(codec, bits, channels) =>
      common.(codec := Some(codec), bitsPerCodedSample := Some(bits),
              bitsPerSample := Some(bits), channels := Some(channels))
    case IeeeFloat(codec, channels) =>
      common.(codec := Some(codec), channels := Some(channels))
    case Extensible(codec, bits, codedBits, channels) =>
      common.(codec := Some(codec), bitsPerCodedSample := Some(codedBits),
              bitsPerSample := Some(bits), channels := Some(channels))
    case ALaw(codec, channels) =>
      common.(codec := Some(codec), channels := Some(channels))
    case MuLaw(codec, channels) =>
      common.(codec := Some(codec), channels := Some(channels))
  }

  /** Merges a parsed Fact chunk into `p`: sets the frame count, nothing else. */
  function AppendFactParams(p: CodecParameters, fact: FactChunk): (r: CodecParameters)
    ensures r.nFrames == Some(fact.nFrames)
    ensures r.(nFrames := p.nFrames) == p
  {
    p.(nFrames := Some(fact.nFrames))
  }

  /**
   * A second Format chunk overrides the first: when it fixes the bit depths
   * nothing of the first survives; otherwise only the first's bit depths do.
   */
  lemma FormatOverridesFormat(p: CodecParameters, f1: WaveFormatChunk, f2: WaveFormatChunk)
    ensures SetsBitDepth(f2.formatData) ==>
      AppendFormatParams(AppendFormatParams(p, f1), f2) == AppendFormatParams(p, f2)
    ensures !SetsBitDepth(f2.formatData) ==>
      AppendFormatParams(AppendFormatParams(p, f1), f2) ==
      AppendFormatParams(p, f2).(bitsPerSample := AppendFormatParams(p, f1).bitsPerSample,
                                 bitsPerCodedSample := AppendFormatParams(p, f1).bitsPerCodedSample)
  {
  }

  /** A second Fact chunk overrides the first. */
  lemma FactOverridesFact(p: CodecParameters, a: FactChunk, b: FactChunk)
    ensures AppendFactParams(AppendFactParams(p, a), b) == AppendFactParams(p, b)
  {
  }

  /** Format and Fact chunks write disjoint fields, so their order does not matter. */
  lemma FormatAndFactCommute(p: CodecParameters, f: WaveFormatChunk, t: FactChunk)
    ensures AppendFactParams(AppendFormatParams(p, f), t) == AppendFormatParams(AppendFactParams(p, t), f)
  {
  }
}
