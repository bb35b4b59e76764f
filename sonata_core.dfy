/**
 * The parts of the host library (`sonata_core`) that the WAVE reader uses:
 * fixed-width integers, the error and option wrappers, the codec-parameter
 * record, streams, tags, probe depths and results, and a forward-only byte
 * cursor standing for `MediaSourceStream`.
 */
module SonataCore {

  // Fixed-width unsigned integers of the source, as ranges of `int`.
  type u16 = x: int | 0 <= x < 0x1_0000
  type u32 = x: int | 0 <= x < 0x1_0000_0000
  type u64 = x: int | 0 <= x < 0x1_0000_0000_0000_0000

  /** A stream timestamp (`Timestamp`), in timebase units. */
  type Timestamp = u64

  /** A four-byte tag (`[u8; 4]`): a chunk id, a RIFF form or a stream marker. */
  type Quad = s: seq<bv8> | |s| == 4 witness [0, 0, 0, 0]

  datatype Option<+T> = None | Some(value: T)

  /** The error kinds that reach the WAVE reader. */
  datatype Error =
    | UnexpectedEof
    // Raised by the chunk and payload parsers; here it is carried by the
    // `Err` items of an abstract chunk sequence.
    | MalformedChunk(what: string)
    | UnsupportedOperation(what: string)

  datatype Result<+T> = Ok(value: T) | Err(error: Error)

  /** Codec identifier (`CodecType`), an opaque number. */
  datatype CodecType = CodecType(id: u32)

  /** Channel layout (`Channels`), a bit mask. */
  datatype Channels = Channels(mask: u32)

  /**
   * The fields of `CodecParameters` that the WAVE reader writes. A fresh
   * record has every field unset; each `with_*` or `for_codec` call sets one.
   */
  datatype CodecParameters = CodecParameters(
    codec: Option<CodecType>,
    sampleRate: Option<u32>,
    channels: Option<Channels>,
    bitsPerSample: Option<u32>,
    bitsPerCodedSample: Option<u32>,
    maxFramesPerPacket: Option<u64>,
    nFrames: Option<u64>)

  /** `CodecParameters::new()`. */
  const NEW_CODEC_PARAMETERS := CodecParameters(None, None, None, None, None, None, None)

  /** A registered elementary stream: a snapshot of its codec parameters. */
  datatype Stream = Stream(codecParams: CodecParameters)

  datatype Tag = Tag(key: string, value: string)

  datatype ProbeDepth = Shallow | Deep

  datatype ProbeResult = Supported | Unsupported

  /** Little-endian reading of four bytes (`read_u32`). */
  function LeU32(b: Quad): (r: u32)
    ensures r % 256 == b[0] as int
    ensures r / 0x100_0000 == b[3] as int
  {
    b[0] as int + 0x100 * b[1] as int + 0x1_0000 * b[2] as int + 0x100_0000 * b[3] as int
  }

  /**
   * A forward-only cursor over the bytes of the media source. A read that
   * asks for more bytes than remain fails with `UnexpectedEof` and leaves
   * the cursor at the end of the data.
   */
  class MediaSourceStream {
    const data: seq<bv8>
    var pos: nat

    ghost predicate Valid()
      reads this
    {
      pos <= |data|
    }

    constructor (bytes: seq<bv8>)
      ensures Valid() && data == bytes && pos == 0
    {
      data := bytes;
      pos := 0;
    }

    /** `read_u8`: the next byte. */
    method ReadU8() returns (r: Result<bv8>)
      requires Valid()
      modifies this
      ensures Valid()
      ensures old(pos) < |data| ==> r == Ok(data[old(pos)]) && pos == old(pos) + 1
      ensures old(pos) == |data| ==> r == Err(UnexpectedEof) && pos == |data|
    {
      if pos < |data| {
        r := Ok(data[pos]);
        pos := pos + 1;
      } else {
        r := Err(UnexpectedEof);
      }
    }

    /** `read_buf_bytes`: fills all of `buf` or fails. */
    method ReadBufBytes(buf: array<bv8>) returns (r: Result<()>)
      requires Valid()
      modifies this, buf
      ensures Valid()
      ensures old(pos) + buf.Length <= |data| ==>
        r == Ok(()) && pos == old(pos) + buf.Length && buf[..] == data[old(pos)..pos]
      ensures old(pos) + buf.Length > |data| ==>
        r == Err(UnexpectedEof) && pos == |data| && buf[..] == old(buf[..])
    {
      if pos + buf.Length <= |data| {
        forall i | 0 <= i < buf.Length {
          buf[i] := data[pos + i];
        }
        pos := pos + buf.Length;
        r := Ok(());
      } else {
        pos := |data|;
        r := Err(UnexpectedEof);
      }
    }

    /** `read_quad_bytes`: the next four bytes. */
    method ReadQuadBytes() returns (r: Result<Quad>)
      requires Valid()
      modifies this
      ensures Valid()
      ensures old(pos) + 4 <= |data| ==> r == Ok(data[old(pos)..old(pos) + 4]) && pos == old(pos) + 4
      ensures old(pos) + 4 > |data| ==> r == Err(UnexpectedEof) && pos == |data|
    {
      if pos + 4 <= |data| {
        r := Ok(data[pos..pos + 4]);
        pos := pos + 4;
      } else {
        pos := |data|;
        r := Err(UnexpectedEof);
      }
    }

    /** `read_u32`: the next four bytes, little-endian. */
    method ReadU32() returns (r: Result<u32>)
      requires Valid()
      modifies this
      ensures Valid()
      ensures old(pos) + 4 <= |data| ==> r == Ok(LeU32(data[old(pos)..old(pos) + 4])) && pos == old(pos) + 4
      ensures old(pos) + 4 > |data| ==> r == Err(UnexpectedEof) && pos == |data|
    {
      var q := ReadQuadBytes();
      if q.Err? {
        return Err(q.error);
      }
      r := Ok(LeU32(q.value));
    }
  }
}
