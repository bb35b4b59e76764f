/**
 * The WAVE demuxer (`WavReader`): probing a RIFF WAVE file for its one audio
 * stream, merging the Format and Fact chunks into that stream's codec
 * parameters, and collecting the tags of INFO lists.
 *
 * The chunk reader over the RIFF body is given to `Probe` as the function
 * `chunksOf`: `chunksOf(riffLen)` is the sequence of chunks the reader
 * yields over a region of `riffLen` bytes, an `Err` item standing for a
 * read or payload parse that failed.
 */
module Wav {
  import opened SonataCore
  import opened WavChunks
  import opened WavParams
  import opened WavSearch

  // ---------------------------------------------------------------------
  // INFO lists

  /** The tags an INFO walk appends, and what it returns. */
  datatype Metadata = Metadata(tags: seq<Tag>, result: Result<()>)

  /**
   * The INFO walk of `read_metadata`: one tag per sub-chunk, in order, up to
   * the first failure; `close` (the `finish` step) is reached only when
   * every sub-chunk was read.
   */
  function ReadMetadataSpec(entries: seq<Result<Tag>>, close: Result<()>): (m: Metadata)
    ensures |m.tags| <= |entries|
    ensures m.result.Ok? ==> |m.tags| == |entries| && close.Ok?
  {
    if entries == [] then Metadata([], close)
    else match entries[0]
      case Err(e) => Metadata([], Err(e))
      case Ok(t) =>
        var rest := ReadMetadataSpec(entries[1..], close);
        Metadata([t] + rest.tags, rest.result)
  }

  /**
   * When the first `k` sub-chunks are read and the next one fails (or there
   * is none), the walk appends exactly those `k` tags, in order, and returns
   * that failure (or the result of `finish`).
   */
  lemma {:induction false} ReadMetadataTags(entries: seq<Result<Tag>>, close: Result<()>, k: nat)
    requires k <= |entries|
    requires forall j :: 0 <= j < k ==> entries[j].Ok?
    requires k < |entries| ==> entries[k].Err?
    ensures var m := ReadMetadataSpec(entries, close);
      |m.tags| == k &&
      (forall j :: 0 <= j < k ==> m.tags[j] == entries[j].value) &&
      m.result == (if k == |entries| then close else Err(entries[k].error))
  {
    if k > 0 {
      ReadMetadataTags(entries[1..], close, k - 1);
    }
  }

  // ---------------------------------------------------------------------
  // The chunk walk of `probe`

  /** What the chunk walk returns, the tags it appended, and the stream it registered. */
  datatype Walk = Walk(result: Result<ProbeResult>, newTags: seq<Tag>, stream: Option<Stream>)

  function Prepend(tags: seq<Tag>, w: Walk): Walk {
    w.(newTags := tags + w.newTags)
  }

  /** True of a List chunk whose walk (INFO) or skip (any other form) fails. */
  predicate ListFails(l: ListChunk) {
    if l.form == INFO_FORM then ReadMetadataSpec(l.entries, l.close).result.Err? else l.close.Err?
  }

  /** The tags a List chunk contributes: those of its INFO walk, none for another form. */
  function ListTags(l: ListChunk): seq<Tag> {
    if l.form == INFO_FORM then ReadMetadataSpec(l.entries, l.close).tags else []
  }

  /** The error a failing List chunk propagates. */
  function ListError(l: ListChunk): Error
    requires ListFails(l)
  {
    if l.form == INFO_FORM then ReadMetadataSpec(l.entries, l.close).result.error else l.close.error
  }

  /**
   * The loop of `probe` over the top-level chunks, starting from codec
   * parameters `params`. A registered stream and a `Supported` result go
   * together.
   */
  function WalkChunks(chunks: seq<Result<WaveChunk>>, params: CodecParameters): (w: Walk)
    ensures w.stream.Some? <==> w.result == Ok(Supported)
  {
    if chunks == [] then Walk(Ok(Unsupported), [], None)
    else match chunks[0]
      case Err(e) => Walk(Err(e), [], None)
      case Ok(Format(f)) => WalkChunks(chunks[1..], AppendFormatParams(params, f))
      case Ok(Fact(t)) => WalkChunks(chunks[1..], AppendFactParams(params, t))
      case Ok(List(l)) =>
        if l.form == INFO_FORM then
          var m := ReadMetadataSpec(l.entries, l.close);
          if m.result.Err? then Walk(Err(m.result.error), m.tags, None)
          else Prepend(m.tags, WalkChunks(chunks[1..], params))
        else if l.close.Err? then Walk(Err(l.close.error), [], None)
        else WalkChunks(chunks[1..], params)
      case Ok(Data) => Walk(Ok(Supported), [], Some(Stream(params)))
  }

  /** A chunk the walk moves past: read without error, not Data, not a failing List. */
  predicate PassesThrough(c: Result<WaveChunk>) {
    c.Ok? && !c.value.Data? && !(c.value.List? && ListFails(c.value.list))
  }

  /** The codec parameters after merging, in order, every Format and Fact chunk of `chunks`. */
  function FoldParams(chunks: seq<Result<WaveChunk>>, p: CodecParameters): CodecParameters {
    if chunks == [] then p
    else FoldParams(chunks[1..], MergeChunk(p, chunks[0]))
  }

  /** The codec parameters after one chunk: Format and Fact chunks merge, others leave them. */
  function MergeChunk(p: CodecParameters, c: Result<WaveChunk>): CodecParameters {
    match c
    case Ok(Format(f)) => AppendFormatParams(p, f)
    case Ok(Fact(t)) => AppendFactParams(p, t)
    case _ => p
  }

  /** The tags one chunk contributes: those of a List chunk, none for any other. */
  function ChunkTags(c: Result<WaveChunk>): seq<Tag> {
    if c.Ok? && c.value.List? then ListTags(c.value.list) else []
  }

  /** The tags of every List chunk of `chunks`, in order. */
  function TagsOf(chunks: seq<Result<WaveChunk>>): seq<Tag> {
    if chunks == [] then [] else ChunkTags(chunks[0]) + TagsOf(chunks[1..])
  }

  /** One step of the walk past a chunk it moves over: its tags, then the rest from the merged parameters. */
  lemma WalkPassesOver(c: Result<WaveChunk>, rest: seq<Result<WaveChunk>>, p: CodecParameters)
    requires PassesThrough(c)
    ensures WalkChunks([c] + rest, p) == Prepend(ChunkTags(c), WalkChunks(rest, MergeChunk(p, c)))
  {
    assert ([c] + rest)[0] == c;
    assert ([c] + rest)[1..] == rest;
    if !(c.value.List? && c.value.list.form == INFO_FORM) {
      assert ChunkTags(c) == [];
      var w := WalkChunks(rest, MergeChunk(p, c));
      assert w.newTags == [] + w.newTags;
    }
  }

  predicate IsFormat(c: Result<WaveChunk>) {
    c.Ok? && c.value.Format?
  }

  predicate IsFact(c: Result<WaveChunk>) {
    c.Ok? && c.value.Fact?
  }

  /**
   * The walk stops at the first Data chunk: it returns `Supported` with one
   * stream carrying the parameters of the Format and Fact chunks before it,
   * and nothing after it is looked at.
   */
  lemma {:induction false} WalkStopsAtData(pre: seq<Result<WaveChunk>>, rest: seq<Result<WaveChunk>>, p: CodecParameters)
    requires forall j :: 0 <= j < |pre| ==> PassesThrough(pre[j])
    ensures WalkChunks(pre + [Ok(Data)] + rest, p) ==
            Walk(Ok(Supported), TagsOf(pre), Some(Stream(FoldParams(pre, p))))
  {
    if pre != [] {
      var tail := pre[1..] + [Ok(Data)] + rest;
      assert pre + [Ok(Data)] + rest == [pre[0]] + tail;
      WalkPassesOver(pre[0], tail, p);
      WalkStopsAtData(pre[1..], rest, MergeChunk(p, pre[0]));
    } else {
      assert (pre + [Ok(Data)] + rest)[0] == Ok(Data);
    }
  }

  /** When the chunks run out before any Data chunk, the walk returns `Unsupported` and registers nothing. */
  lemma {:induction false} WalkExhausted(chunks: seq<Result<WaveChunk>>, p: CodecParameters)
    requires forall j :: 0 <= j < |chunks| ==> PassesThrough(chunks[j])
    ensures WalkChunks(chunks, p) == Walk(Ok(Unsupported), TagsOf(chunks), None)
  {
    if chunks != [] {
      assert chunks == [chunks[0]] + chunks[1..];
      WalkPassesOver(chunks[0], chunks[1..], p);
      WalkExhausted(chunks[1..], MergeChunk(p, chunks[0]));
    }
  }

  /** A chunk that cannot be read or parsed ends the walk with its error, registering nothing. */
  lemma {:induction false} WalkStopsAtError(pre: seq<Result<WaveChunk>>, e: Error, rest: seq<Result<WaveChunk>>, p: CodecParameters)
    requires forall j :: 0 <= j < |pre| ==> PassesThrough(pre[j])
    ensures WalkChunks(pre + [Err(e)] + rest, p) == Walk(Err(e), TagsOf(pre), None)
  {
    if pre != [] {
      var tail := pre[1..] + [Err(e)] + rest;
      assert pre + [Err(e)] + rest == [pre[0]] + tail;
      WalkPassesOver(pre[0], tail, p);
      WalkStopsAtError(pre[1..], e, rest, MergeChunk(p, pre[0]));
    } else {
      assert (pre + [Err(e)] + rest)[0] == Err(e);
    }
  }

  /**
   * A List chunk whose INFO walk or skip fails ends the walk with that error;
   * the tags its INFO walk appended before failing stay appended.
   */
  lemma {:induction false} WalkStopsAtFailedList(pre: seq<Result<WaveChunk>>, l: ListChunk, rest: seq<Result<WaveChunk>>, p: CodecParameters)
    requires forall j :: 0 <= j < |pre| ==> PassesThrough(pre[j])
    requires ListFails(l)
    ensures WalkChunks(pre + [Ok(List(l))] + rest, p) == Walk(Err(ListError(l)), TagsOf(pre) + ListTags(l), None)
  {
    if pre != [] {
      var tail := pre[1..] + [Ok(List(l))] + rest;
      assert pre + [Ok(List(l))] + rest == [pre[0]] + tail;
      WalkPassesOver(pre[0], tail, p);
      WalkStopsAtFailedList(pre[1..], l, rest, MergeChunk(p, pre[0]));
      assert TagsOf(pre) + ListTags(l) == ChunkTags(pre[0]) + (TagsOf(pre[1..]) + ListTags(l));
    } else {
      assert (pre + [Ok(List(l))] + rest)[0] == Ok(List(l));
      assert TagsOf(pre) + ListTags(l) == ListTags(l);
    }
  }

  /** The walk is `Supported` only at a Data chunk that every earlier chunk lets it reach. */
  lemma {:induction false} WalkSupportedOnlyAtData(chunks: seq<Result<WaveChunk>>, p: CodecParameters)
    requires WalkChunks(chunks, p).result == Ok(Supported)
    ensures exists i :: 0 <= i < |chunks| && chunks[i] == Ok(Data) &&
                        forall j :: 0 <= j < i ==> PassesThrough(chunks[j])
  {
    assert chunks != [];
    if chunks[0] != Ok(Data) {
      var q := MergeChunk(p, chunks[0]);
      WalkSupportedOnlyAtData(chunks[1..], q);
      var i :| 0 <= i < |chunks[1..]| && chunks[1..][i] == Ok(Data) &&
               forall j :: 0 <= j < i ==> PassesThrough(chunks[1..][j]);
      assert chunks[i + 1] == Ok(Data);
      assert forall j :: 0 <= j < i + 1 ==> PassesThrough(chunks[j]) by {
        forall j | 0 <= j < i + 1 ensures PassesThrough(chunks[j]) {
          if j > 0 {
            assert chunks[j] == chunks[1..][j - 1];
          }
        }
      }
    }
  }

  // ---------------------------------------------------------------------
  // Merging Format and Fact chunks across the walk

  lemma {:induction false} FoldParamsSplit(a: seq<Result<WaveChunk>>, b: seq<Result<WaveChunk>>, p: CodecParameters)
    ensures FoldParams(a + b, p) == FoldParams(b, FoldParams(a, p))
  {
    if a != [] {
      assert (a + b)[0] == a[0];
      assert (a + b)[1..] == a[1..] + b;
      var q := MergeChunk(p, a[0]);
      FoldParamsSplit(a[1..], b, q);
    } else {
      assert a + b == b;
    }
  }

  /**
   * Without a Format chunk, only the frame count can change: a stream
   * registered without one carries the starting (empty) parameters, apart
   * from a frame count an earlier Fact chunk set.
   */
  lemma {:induction false} FoldWithoutFormat(chunks: seq<Result<WaveChunk>>, p: CodecParameters)
    requires forall j :: 0 <= j < |chunks| ==> !IsFormat(chunks[j])
    ensures FoldParams(chunks, p).(nFrames := p.nFrames) == p
  {
    if chunks != [] {
      FoldWithoutFormat(chunks[1..], MergeChunk(p, chunks[0]));
    }
  }

  /** Without a Fact chunk, the frame count does not change. */
  lemma {:induction false} FoldWithoutFact(chunks: seq<Result<WaveChunk>>, p: CodecParameters)
    requires forall j :: 0 <= j < |chunks| ==> !IsFact(chunks[j])
    ensures FoldParams(chunks, p).nFrames == p.nFrames
  {
    if chunks != [] {
      FoldWithoutFact(chunks[1..], MergeChunk(p, chunks[0]));
    }
  }

  /**
   * With no Format and no Fact chunk before the first Data chunk, the walk
   * registers a stream with the starting (empty) parameters.
   */
  lemma DataWithoutFormatOrFact(pre: seq<Result<WaveChunk>>, rest: seq<Result<WaveChunk>>)
    requires forall j :: 0 <= j < |pre| ==> PassesThrough(pre[j]) && !IsFormat(pre[j]) && !IsFact(pre[j])
    ensures WalkChunks(pre + [Ok(Data)] + rest, NEW_CODEC_PARAMETERS) ==
            Walk(Ok(Supported), TagsOf(pre), Some(Stream(NEW_CODEC_PARAMETERS)))
  {
    WalkStopsAtData(pre, rest, NEW_CODEC_PARAMETERS);
    FoldWithoutFormat(pre, NEW_CODEC_PARAMETERS);
    FoldWithoutFact(pre, NEW_CODEC_PARAMETERS);
  }

  /**
   * The last Format chunk wins: every field but the frame count is what that
   * chunk's merge left, whatever came after it.
   */
  lemma FoldLastFormatWins(chunks: seq<Result<WaveChunk>>, p: CodecParameters, i: nat)
    requires i < |chunks| && IsFormat(chunks[i])
    requires forall j :: i < j < |chunks| ==> !IsFormat(chunks[j])
    ensures FoldParams(chunks, p).(nFrames := None) ==
            AppendFormatParams(FoldParams(chunks[..i], p), chunks[i].value.format).(nFrames := None)
  {
    var f := chunks[i].value.format;
    assert chunks == chunks[..i] + ([chunks[i]] + chunks[i + 1..]);
    FoldParamsSplit(chunks[..i], [chunks[i]] + chunks[i + 1..], p);
    var q := AppendFormatParams(FoldParams(chunks[..i], p), f);
    assert ([chunks[i]] + chunks[i + 1..])[1..] == chunks[i + 1..];
    FoldWithoutFormat(chunks[i + 1..], q);
  }

  /** The last Fact chunk wins: the frame count is its frame count. */
  lemma FoldLastFactWins(chunks: seq<Result<WaveChunk>>, p: CodecParameters, i: nat)
    requires i < |chunks| && IsFact(chunks[i])
    requires forall j :: i < j < |chunks| ==> !IsFact(chunks[j])
    ensures FoldParams(chunks, p).nFrames == Some(chunks[i].value.fact.nFrames)
  {
    assert chunks == chunks[..i] + ([chunks[i]] + chunks[i + 1..]);
    FoldParamsSplit(chunks[..i], [chunks[i]] + chunks[i + 1..], p);
    var q := AppendFactParams(FoldParams(chunks[..i], p), chunks[i].value.fact);
    assert ([chunks[i]] + chunks[i + 1..])[1..] == chunks[i + 1..];
    FoldWithoutFact(chunks[i + 1..], q);
  }

  // ---------------------------------------------------------------------
  // The whole probe

  /** What `probe` returns, appends and registers, and where it leaves the cursor. */
  datatype ProbeRun = ProbeRun(walk: Walk, cursor: nat)

  /**
   * `probe` from cursor position `pos`: search for "RIFF", read the RIFF
   * length and form, and walk the chunks unless the form is "wave" (lower
   * case, compared as the source does). The chunk walk's own reads are not
   * modelled, so the cursor stays at the end of the RIFF header.
   */
  function ProbeSpec(data: seq<bv8>, pos: nat, depth: ProbeDepth, chunksOf: u32 -> seq<Result<WaveChunk>>): (run: ProbeRun)
    requires pos <= |data|
    ensures pos <= run.cursor <= |data|
    ensures run.walk.stream.Some? <==> run.walk.result == Ok(Supported)
  {
    var search := SearchSpec(data, pos, RIFF_MARKER, depth);
    var q := pos + search.consumed;
    match search.outcome
    case Err(e) => ProbeRun(Walk(Err(e), [], None), q)
    case Ok(None) => ProbeRun(Walk(Ok(Unsupported), [], None), q)
    case Ok(Some(_)) =>
      if q + 8 > |data| then ProbeRun(Walk(Err(UnexpectedEof), [], None), |data|)
      else if data[q + 4..q + 8] != WAVE_FORM_LOWER then
        ProbeRun(WalkChunks(chunksOf(LeU32(data[q..q + 4])), NEW_CODEC_PARAMETERS), q + 8)
      else
        ProbeRun(Walk(Ok(Unsupported), [], None), q + 8)
  }

  /**
   * `probe` is `Supported` exactly when the "RIFF" marker is found, a whole
   * RIFF header follows it, its form is not "wave", and the chunk walk over
   * the RIFF length reaches a Data chunk.
   */
  lemma ProbeSupportedIff(data: seq<bv8>, pos: nat, depth: ProbeDepth, chunksOf: u32 -> seq<Result<WaveChunk>>)
    requires pos <= |data|
    ensures var search := SearchSpec(data, pos, RIFF_MARKER, depth);
      var q := pos + search.consumed;
      ProbeSpec(data, pos, depth, chunksOf).walk.result == Ok(Supported) <==>
        search.outcome == Ok(Some(RIFF_MARKER)) && q + 8 <= |data| &&
        data[q + 4..q + 8] != WAVE_FORM_LOWER &&
        WalkChunks(chunksOf(LeU32(data[q..q + 4])), NEW_CODEC_PARAMETERS).result == Ok(Supported)
  {
    SearchFoundIsFirst(data, pos, RIFF_MARKER, depth);
  }

  /**
   * No "RIFF" marker: `probe` is `Unsupported`, appends no tags, registers
   * no stream, and leaves the cursor after the bytes the search consumed.
   */
  lemma ProbeNoMarker(data: seq<bv8>, pos: nat, depth: ProbeDepth, chunksOf: u32 -> seq<Result<WaveChunk>>)
    requires pos <= |data|
    requires SearchSpec(data, pos, RIFF_MARKER, depth).outcome == Ok(None)
    ensures ProbeSpec(data, pos, depth, chunksOf) ==
      ProbeRun(Walk(Ok(Unsupported), [], None), pos + SearchSpec(data, pos, RIFF_MARKER, depth).consumed)
  {
  }

  /**
   * A deep probe over a stream with more than `WAVE_PROBE_SEARCH_LIMIT`
   * bytes left, none of whose windows within the limit is "RIFF", gives up:
   * it is `Unsupported` with nothing appended, after consuming
   * `WAVE_PROBE_SEARCH_LIMIT + 1` bytes.
   */
  lemma DeepProbeGivesUp(data: seq<bv8>, pos: nat, chunksOf: u32 -> seq<Result<WaveChunk>>)
    requires pos + WAVE_PROBE_SEARCH_LIMIT + 1 <= |data|
    requires NoMatchBetween(data, pos, RIFF_MARKER, 0, WAVE_PROBE_SEARCH_LIMIT - 2)
    ensures ProbeSpec(data, pos, Deep, chunksOf) ==
      ProbeRun(Walk(Ok(Unsupported), [], None), pos + WAVE_PROBE_SEARCH_LIMIT + 1)
  {
    var search := SearchSpec(data, pos, RIFF_MARKER, Deep);
    SearchFoundIsFirst(data, pos, RIFF_MARKER, Deep);
    SearchNotFound(data, pos, RIFF_MARKER, Deep);
    if search.outcome.Ok? && search.outcome.value.Some? {
      assert MatchesAt(data, pos, search.consumed - 4, RIFF_MARKER);
      assert false;
    }
    assert search.outcome == Ok(None);
  }

  /**
   * The form check as written: once a RIFF header has been read, a form of
   * "wave" (lower case) is `Unsupported` with nothing appended, and every
   * other form, the usual "WAVE" among them, goes on to the chunk walk.
   */
  lemma ProbeFormCheck(data: seq<bv8>, pos: nat, depth: ProbeDepth, chunksOf: u32 -> seq<Result<WaveChunk>>)
    requires pos <= |data|
    requires SearchSpec(data, pos, RIFF_MARKER, depth).outcome.Ok?
    requires SearchSpec(data, pos, RIFF_MARKER, depth).outcome.value.Some?
    requires pos + SearchSpec(data, pos, RIFF_MARKER, depth).consumed + 8 <= |data|
    ensures var q := pos + SearchSpec(data, pos, RIFF_MARKER, depth).consumed;
      var run := ProbeSpec(data, pos, depth, chunksOf);
      run.cursor == q + 8 &&
      (data[q + 4..q + 8] == WAVE_FORM_LOWER ==> run.walk == Walk(Ok(Unsupported), [], None)) &&
      (data[q + 4..q + 8] != WAVE_FORM_LOWER ==>
        run.walk == WalkChunks(chunksOf(LeU32(data[q..q + 4])), NEW_CODEC_PARAMETERS)) &&
      (data[q + 4..q + 8] == WAVE_FORM ==>
        run.walk == WalkChunks(chunksOf(LeU32(data[q..q + 4])), NEW_CODEC_PARAMETERS))
  {
    assert WAVE_FORM[0] != WAVE_FORM_LOWER[0];
  }

  /**
   * A stream that starts with a RIFF header of form "WAVE" whose chunks
   * begin with a Format chunk and then a Data chunk is `Supported`, at
   * either depth, with one stream whose parameters are that Format chunk's.
   */
  lemma ProbeFormatThenData(data: seq<bv8>, pos: nat, depth: ProbeDepth, chunksOf: u32 -> seq<Result<WaveChunk>>,
                            f: WaveFormatChunk, rest: seq<Result<WaveChunk>>)
    requires pos + 12 <= |data|
    requires data[pos..pos + 4] == RIFF_MARKER && data[pos + 8..pos + 12] == WAVE_FORM
    requires chunksOf(LeU32(data[pos + 4..pos + 8])) == [Ok(Format(f)), Ok(Data)] + rest
    ensures ProbeSpec(data, pos, depth, chunksOf) ==
      ProbeRun(Walk(Ok(Supported), [], Some(Stream(AppendFormatParams(NEW_CODEC_PARAMETERS, f)))), pos + 12)
  {
    assert SearchSpec(data, pos, RIFF_MARKER, depth) == Search(Ok(Some(RIFF_MARKER)), 4);
    assert WAVE_FORM[0] != WAVE_FORM_LOWER[0];
    var q := pos + 4;
    assert data[q + 4..q + 8] != WAVE_FORM_LOWER;
    var chunks := [Ok(Format(f)), Ok(Data)] + rest;
    assert chunks == chunksOf(LeU32(data[q..q + 4]));
    assert chunks[1..] == [Ok(Data)] + rest;
    assert WalkChunks(chunks[1..], AppendFormatParams(NEW_CODEC_PARAMETERS, f)) ==
      Walk(Ok(Supported), [], Some(Stream(AppendFormatParams(NEW_CODEC_PARAMETERS, f))));
  }

  function StreamList(s: Option<Stream>): seq<Stream> {
    if s.Some? then [s.value] else []
  }

  // ---------------------------------------------------------------------
  // The reader

  /** `WavReader`: the byte source, the streams it registered and the tags it collected. */
  class WavReader {
    const reader: MediaSourceStream
    var streams: seq<Stream>
    var tags: seq<Tag>

    ghost predicate Valid()
      reads this, reader
    {
      reader.Valid()
    }

    /** `open`: a reader over `source` with no streams and no tags yet. */
    constructor Open(source: MediaSourceStream)
      requires source.Valid()
      ensures Valid() && reader == source && streams == [] && tags == []
    {
      reader := source;
      streams := [];
      tags := [];
    }

    /**
     * `read_metadata`: walks the sub-chunks of an INFO list, appending one
     * tag per sub-chunk, then finishes the list.
     */
    method ReadMetadata(list: ListChunk) returns (r: Result<()>)
      modifies this`tags
      ensures var m := ReadMetadataSpec(list.entries, list.close);
        tags == old(tags) + m.tags && r == m.result
    {
      var entries := list.entries;
      var i := 0;
      ghost var added: seq<Tag> := [];
      while i < |entries|
        invariant 0 <= i <= |entries|
        invariant tags == old(tags) + added
        invariant var m := ReadMetadataSpec(entries[i..], list.close);
          ReadMetadataSpec(entries, list.close) == Metadata(added + m.tags, m.result)
      {
        assert entries[i..][0] == entries[i];
        assert entries[i..][1..] == entries[i + 1..];
        match entries[i] {
          case Err(e) =>
            return Err(e);
          case Ok(tag) =>
            tags := tags + [tag];
            added := added + [tag];
        }
        i := i + 1;
      }
      return list.close;
    }

    /** `seek`: this reader cannot seek. */
    method Seek(ts: Timestamp) returns (r: Result<u64>)
      ensures r == Err(UnsupportedOperation("Seeking is unsupported"))
    {
      return Err(UnsupportedOperation("Seeking is unsupported"));
    }

    /**
     * The chunk loop of `probe`: merges Format and Fact chunks into codec
     * parameters that start empty, reads INFO lists into the tags, skips
     * other lists, and at the first Data chunk registers one stream with
     * the parameters gathered so far and stops.
     */
    method WalkRiffChunks(chunks: seq<Result<WaveChunk>>) returns (r: Result<ProbeResult>)
      modifies this`tags, this`streams
      ensures var w := WalkChunks(chunks, NEW_CODEC_PARAMETERS);
        r == w.result && tags == old(tags) + w.newTags && streams == old(streams) + StreamList(w.stream)
    {
      var codecParams := NEW_CODEC_PARAMETERS;
      var i := 0;
      ghost var added: seq<Tag> := [];
      while i < |chunks|
        invariant 0 <= i <= |chunks|
        invariant tags == old(tags) + added
        invariant streams == old(streams)
        invariant Prepend(added, WalkChunks(chunks[i..], codecParams)) == WalkChunks(chunks, NEW_CODEC_PARAMETERS)
      {
        assert chunks[i..][0] == chunks[i];
        assert chunks[i..][1..] == chunks[i + 1..];
        match chunks[i] {
          case Err(e) =>
            return Err(e);
          case Ok(Format(format)) =>
            codecParams := AppendFormatParams(codecParams, format);
          case Ok(Fact(fact)) =>
            codecParams := AppendFactParams(codecParams, fact);
          case Ok(List(list)) =>
            if list.form == INFO_FORM {
              var read := ReadMetadata(list);
              added := added + ReadMetadataSpec(list.entries, list.close).tags;
              if read.Err? {
                return Err(read.error);
              }
            } else if list.close.Err? {
              return Err(list.close.error);
            }
          case Ok(Data) =>
            streams := streams + [Stream(codecParams)];
            return Ok(Supported);
        }
        i := i + 1;
      }
      return Ok(Unsupported);
    }

    /**
     * `probe`: searches for the RIFF marker, reads the RIFF header and walks
     * the chunks, registering one stream at the first Data chunk.
     */
    method Probe(depth: ProbeDepth, chunksOf: u32 -> seq<Result<WaveChunk>>) returns (r: Result<ProbeResult>)
      requires Valid()
      modifies this, reader
      ensures Valid()
      ensures var run := ProbeSpec(reader.data, old(reader.pos), depth, chunksOf);
        r == run.walk.result &&
        tags == old(tags) + run.walk.newTags &&
        streams == old(streams) + StreamList(run.walk.stream) &&
        reader.pos == run.cursor
    {
      ghost var data, start := reader.data, reader.pos;
      ghost var run := ProbeSpec(data, start, depth, chunksOf);
      var marker := SearchForMarker(reader, RIFF_MARKER, depth);
      if marker.Err? {
        assert run == ProbeRun(Walk(Err(marker.error), [], None), reader.pos);
        return Err(marker.error);
      }
      if marker.value.None? {
        assert run == ProbeRun(Walk(Ok(Unsupported), [], None), reader.pos);
        return Ok(Unsupported);
      }
      ghost var q := reader.pos;
      var riffLen := reader.ReadU32();
      if riffLen.Err? {
        assert run == ProbeRun(Walk(Err(UnexpectedEof), [], None), |data|);
        return Err(riffLen.error);
      }
      var riffForm := reader.ReadQuadBytes();
      if riffForm.Err? {
        assert run == ProbeRun(Walk(Err(UnexpectedEof), [], None), |data|);
        return Err(riffForm.error);
      }
      assert riffLen.value == LeU32(data[q..q + 4]) && riffForm.value == data[q + 4..q + 8];
      if riffForm.value != WAVE_FORM_LOWER {
        assert run == ProbeRun(WalkChunks(chunksOf(riffLen.value), NEW_CODEC_PARAMETERS), q + 8);
        r := WalkRiffChunks(chunksOf(riffLen.value));
        return;
      }
      assert run == ProbeRun(Walk(Ok(Unsupported), [], None), q + 8);
      return Ok(Unsupported);
    }
  }
}
