/**
 * The chunks of a RIFF WAVE file, as the chunk reader and the payload
 * parsers hand them to the WAVE reader. The reader and the parsers are not
 * part of this model: a chunk is given here by the values the reader takes
 * from it, and a failed read or parse by the error it propagates.
 */
module WavChunks {
  import opened SonataCore

  /** "RIFF": the marker that opens a RIFF file. */
  const RIFF_MARKER: Quad := [0x52, 0x49, 0x46, 0x46]

  /** "INFO": the form of a LIST chunk holding metadata tags. */
  const INFO_FORM: Quad := [0x49, 0x4E, 0x46, 0x4F]

  /** "wave", lower case: the form value compared with the RIFF form. */
  const WAVE_FORM_LOWER: Quad := [0x77, 0x61, 0x76, 0x65]

  /** "WAVE": the form a RIFF WAVE file carries. */
  const WAVE_FORM: Quad := [0x57, 0x41, 0x56, 0x45]

  /**
   * The sub-format of a Format chunk. Each variant carries the codec and
   * channel layout its parser derived; PCM has one bit depth, Extensible a
   * valid-bits depth and a container depth.
   */
  datatype WaveFormatData =
    | Pcm(codec: CodecType, bitsPerSample: u16, channels: Channels)
    | IeeeFloat(codec: CodecType, channels: Channels)
    | Extensible(codec: CodecType, bitsPerSample: u16, bitsPerCodedSample: u16, channels: Channels)
    | ALaw(codec: CodecType, channels: Channels)
    | MuLaw(codec: CodecType, channels: Channels)

  datatype WaveFormatChunk = WaveFormatChunk(sampleRate: u32, formatData: WaveFormatData)

  datatype FactChunk = FactChunk(nFrames: u32)

  /**
   * A LIST chunk: its form and declared length (`len` only mirrors the
   * length handed to the list parser; no step of the demuxer reads it);
   * `entries` are the results the nested INFO chunk reader yields, one per
   * sub-chunk, in order (an `Err` is a failed read or parse); `close` is the
   * result of the step that consumes the rest of the list (`finish` after an
   * INFO walk, `skip` for any other form).
   */
  datatype ListChunk = ListChunk(form: Quad, len: u32, entries: seq<Result<Tag>>, close: Result<()>)

  /** The top-level chunks a WAVE file is made of. */
  datatype WaveChunk =
    | Format(format: WaveFormatChunk)
    | Fact(fact: FactChunk)
    | List(list: ListChunk)
    | Data
}
