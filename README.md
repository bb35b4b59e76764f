# WAVE demuxer probe, modelled in Dafny

This project models the probing logic of Sonata's WAVE demuxer
(`sonata-format-wav/src/lib.rs`). That logic does four things:

- The bounded sliding-window search for the `"RIFF"` stream marker (`search_for_marker`).
- The probe state machine (`WavReader::probe`). It searches for the marker, reads the RIFF length and form, and walks the top-level chunks. It merges Format and Fact chunks into one set of codec parameters. At the first Data chunk it registers a single stream.
- The record merges of Format and Fact chunks into the codec parameters (`append_format_params` and `append_fact_params`).
- The INFO-list walk that appends tags (`WavReader::read_metadata`). The reader's always-failing `seek` is included too.

Layout:

- `sonata_core.dfy` (module `SonataCore`): the host-library pieces the reader uses.
  - Fixed-width integers and four-byte quads.
  - `Option`, `Result` and the error kinds.
  - `CodecParameters` as a record of optional fields.
  - Streams, tags, probe depths and probe results.
  - `MediaSourceStream`: a class with a forward-only cursor over a byte sequence.
- `wav_chunks.dfy` (module `WavChunks`): the chunks the chunk reader and the payload parsers hand to the demuxer, and the four-byte constants.
- `wav_params.dfy` (module `WavParams`): `AppendFormatParams` and `AppendFactParams`, pure record updates.
- `wav_search.dfy` (module `WavSearch`): `SearchForMarker`.
  - It shifts a four-byte `array` window in place inside a loop.
  - It is proved against the recursive specification `Scan`/`SearchSpec`.
  - Separate lemmas say what that specification promises: first match, byte bound, completeness.
- `wav.dfy` (module `Wav`): the class `WavReader`, with fields `streams` and `tags` and the methods `ReadMetadata`, `WalkRiffChunks`, `Probe` and `Seek`.
  - Each method is proved against a specification function: `ReadMetadataSpec`, `WalkChunks` or `ProbeSpec`.
  - The lemmas describe the chunk walk: where it stops, what it registers, and which Format or Fact chunk wins.

The chunk reader and the payload parsers live outside this file, so they are abstract here:

- `Probe` receives the chunk sequence as a function `chunksOf` of the RIFF length.
- An `Err` item in that sequence stands for a header read or a payload parse that failed.
- A List chunk carries:
  - its form;
  - the results its nested INFO reader yields;
  - the result of the closing step (`finish` after an INFO walk, `skip` for any other form).

A failed read leaves the cursor at the end of the data and reports `UnexpectedEof`.

Three details of the code shape the model:

- The form check (line 131) is kept as written. The chunk walk runs when the form is *not* the lower-case `"wave"`. So a normal `"WAVE"` file is walked, and only a literal `"wave"` form is `Unsupported`. `ProbeFormCheck` states both cases.
- The chunk reader is given the RIFF length itself (line 133). The IBM/Microsoft *Multimedia Programming Interface and Data Specifications 1.0* (the RIFF format) counts the four-byte form type in a RIFF chunk's size. So the chunks after the form span `riff_len - 4` bytes, and the budget the reader receives is four bytes too large.
- The search reads the next byte before it shifts the window, where the code shifts first. When the read fails the window is dropped, so the order cannot be observed.

## Model

| member | source | states |
|---|---|---|
| WavSearch.SearchForMarker | sonata-format-wav/src/lib.rs:231-274 | The in-place window search returns what `SearchSpec` returns and advances the cursor by exactly the bytes `SearchSpec` says it consumed. A failed first read or a failed deep-search read is an error, not `None`. |
| WavSearch.ShiftIn | sonata-format-wav/src/lib.rs:255-258 | The window is shifted left by one byte in place, and the new byte becomes its last byte. |
| WavSearch.ShallowSearchExact | sonata-format-wav/src/lib.rs:231-273 | A shallow search consumes exactly four bytes. It returns `Some(marker)` if and only if those bytes are the marker, and `None` otherwise. |
| WavSearch.SearchFoundIsFirst | sonata-format-wav/src/lib.rs:239-260 | At any depth, a `Some` result is the marker itself. The last four bytes consumed equal the marker, and no earlier window matched. |
| WavSearch.ScanFoundIsFirst | sonata-format-wav/src/lib.rs:239-260 | The same first-match property for the loop started at any window offset, proved by induction over the offsets. |
| WavSearch.SearchNotFound | sonata-format-wav/src/lib.rs:237-273 | The search never consumes more than `WAVE_PROBE_SEARCH_LIMIT + 1` bytes (the limit is 512 KiB, line 35). A `None` result means no window it could see matched. A deep `None` then consumed exactly `WAVE_PROBE_SEARCH_LIMIT + 1` bytes and a shallow one four. An error is `UnexpectedEof` after consuming the rest of the data, which was at most `WAVE_PROBE_SEARCH_LIMIT` bytes. So with more bytes than that left, a search never fails. |
| WavSearch.ScanNotFound | sonata-format-wav/src/lib.rs:245-273 | The no-match, byte-count and error facts for the loop started at any window offset, including that an error leaves at most `WAVE_PROBE_SEARCH_LIMIT` bytes consumed. |
| WavSearch.DeepSearchFindsFirst | sonata-format-wav/src/lib.rs:245-260 | Completeness: when the first occurrence of the marker starts within `WAVE_PROBE_SEARCH_LIMIT - 3` bytes of the cursor, a deep search returns it after consuming exactly up to its end. |
| WavSearch.ScanFindsFirst | sonata-format-wav/src/lib.rs:245-260 | The same completeness for the loop started at any window offset. |
| WavSearch.ScanSkips | sonata-format-wav/src/lib.rs:245-260 | A deep search moves past non-matching windows: from one offset it ends as it would from a later one when nothing between them matches. |
| WavParams.AppendFormatParams | sonata-format-wav/src/lib.rs:188-225 | Every variant sets the packet size to `WAVE_MAX_FRAMES_PER_PACKET` (4096, line 37) and sets the sample rate, codec and channels from the chunk. PCM sets both bit depths to its one depth. Extensible sets each bit depth from its own field. IEEE float, A-law and mu-law leave both bit depths as they were. The frame count is never touched. |
| WavParams.AppendFactParams | sonata-format-wav/src/lib.rs:227-229 | Sets the frame count to the chunk's and changes no other field. |
| WavParams.FormatOverridesFormat | sonata-format-wav/src/lib.rs:188-225 | A second Format chunk overrides the first. When it sets bit depths, nothing of the first survives; otherwise only the first's bit depths do. |
| WavParams.FactOverridesFact | sonata-format-wav/src/lib.rs:227-229 | A second Fact chunk overrides the first. |
| WavParams.FormatAndFactCommute | sonata-format-wav/src/lib.rs:147-159 | Format and Fact merges write disjoint fields, so their order does not matter. |
| Wav.ReadMetadataSpec | sonata-format-wav/src/lib.rs:51-72 | The INFO walk appends at most one tag per sub-chunk. It succeeds only if every sub-chunk was read and the closing `finish` succeeded. |
| Wav.ReadMetadataTags | sonata-format-wav/src/lib.rs:51-72 | When the first `k` sub-chunks read and the next fails (or there is none), exactly those `k` tags are appended, in order. The result is that failure, or the result of `finish`. |
| Wav.WavReader.ReadMetadata | sonata-format-wav/src/lib.rs:51-72 | The loop appends to `tags` exactly the tags of `ReadMetadataSpec`, after the existing ones, which are kept in place. It returns that specification's result. |
| Wav.WalkChunks | sonata-format-wav/src/lib.rs:133-181 | The chunk loop registers a stream exactly when it returns `Supported`. |
| Wav.WalkPassesOver | sonata-format-wav/src/lib.rs:146-169 | One step past a Format, Fact, or successfully read or skipped List chunk. It contributes that chunk's tags (none for a non-INFO List) and continues from the merged parameters. |
| Wav.WalkStopsAtData | sonata-format-wav/src/lib.rs:137-175 | The walk stops at the first Data chunk. It returns `Supported` with one stream carrying the merged parameters of the chunks before it, and nothing after the Data chunk is looked at. |
| Wav.WalkExhausted | sonata-format-wav/src/lib.rs:137-181 | When the chunks run out without a Data chunk, the walk returns `Unsupported` and registers no stream. |
| Wav.WalkStopsAtError | sonata-format-wav/src/lib.rs:137-162 | A chunk that cannot be read or parsed ends the walk with its error and registers no stream. |
| Wav.WalkStopsAtFailedList | sonata-format-wav/src/lib.rs:161-168 | A List whose INFO walk or skip fails ends the walk with that error. The tags its INFO walk appended before failing stay appended. |
| Wav.WalkSupportedOnlyAtData | sonata-format-wav/src/lib.rs:137-178 | `Supported` implies there is a Data chunk that every earlier chunk lets the walk reach. |
| Wav.FoldWithoutFormat | sonata-format-wav/src/lib.rs:135-159 | Without a Format chunk only the frame count can change. A stream registered without one carries the default parameters, apart from a frame count an earlier Fact chunk set. |
| Wav.DataWithoutFormatOrFact | sonata-format-wav/src/lib.rs:135-175 | When no Format and no Fact chunk comes before the first Data chunk, the walk returns `Supported` and registers exactly one stream with the default parameters. |
| Wav.FoldWithoutFact | sonata-format-wav/src/lib.rs:135-159 | Without a Fact chunk the frame count does not change. |
| Wav.FoldParamsSplit | sonata-format-wav/src/lib.rs:137-159 | Merging chunks in two stretches is the same as merging them in one. |
| Wav.FoldLastFormatWins | sonata-format-wav/src/lib.rs:146-159 | The last Format chunk wins: every field but the frame count is what its merge left. |
| Wav.FoldLastFactWins | sonata-format-wav/src/lib.rs:146-159 | The last Fact chunk wins: the frame count is its frame count. |
| Wav.ProbeSpec | sonata-format-wav/src/lib.rs:116-182 | The probe keeps the cursor within the data, never moving it backwards, and registers a stream exactly when it returns `Supported`. |
| Wav.ProbeSupportedIff | sonata-format-wav/src/lib.rs:119-175 | `probe` is `Supported` if and only if all of these hold: the marker is found, a whole RIFF header follows it, the form is not `"wave"`, and the chunk walk over the RIFF length reaches a Data chunk. |
| Wav.ProbeNoMarker | sonata-format-wav/src/lib.rs:119-123 | When the marker search returns `None`, `probe` returns `Unsupported`, appends no tags, registers no stream, and leaves the cursor after the bytes the search consumed. |
| Wav.DeepProbeGivesUp | sonata-format-wav/src/lib.rs:116-123 | A deep probe with more than `WAVE_PROBE_SEARCH_LIMIT` bytes left, where no window within the limit is `"RIFF"`, returns `Unsupported` with nothing appended, after consuming `WAVE_PROBE_SEARCH_LIMIT + 1` bytes. |
| Wav.ProbeFormCheck | sonata-format-wav/src/lib.rs:127-133 | After a whole header, a `"wave"` form is `Unsupported` with no tags and no stream. Every other form, `"WAVE"` among them, goes on to the chunk walk over the RIFF length. The cursor stands right after the header. |
| Wav.ProbeFormatThenData | sonata-format-wav/src/lib.rs:116-175 | A RIFF `"WAVE"` header followed by a Format chunk and then a Data chunk is `Supported` at either depth. It registers one stream with that Format chunk's parameters. |
| Wav.WavReader.WalkRiffChunks | sonata-format-wav/src/lib.rs:133-178 | The chunk loop returns what `WalkChunks` returns from empty parameters. It appends that walk's tags to `tags` and its stream, if any, to `streams`. |
| Wav.WavReader.Probe | sonata-format-wav/src/lib.rs:116-182 | `probe` returns the result of `ProbeSpec`, appends its tags and its stream, if any, and leaves the cursor where `ProbeSpec` says. |
| Wav.WavReader.Seek | sonata-format-wav/src/lib.rs:112-114 | Seeking always fails with an unsupported-operation error. |
| Wav.WavReader.Open | sonata-format-wav/src/lib.rs:78-85 | A new reader owns the source and has no streams and no tags. |

## Left out

- `sonata-codec-mp3/src/demuxer.rs`: its probe delegates to an ID3v2 reader that is not part of this model and then pushes a fixed stream. It has no logic of its own.
- The chunk reader (`ChunksReader`), the payload parsers (`fmt.parse`, `fct.parse`, `lst.parse`, `list.skip`) and the nested INFO reader are not part of this model. Chunks arrive as an abstract sequence, and the model makes no claim about padding, byte accounting or the region budget.
- Wav.WavReader.Probe: the cursor is not advanced by the chunk walk, because the walk's reads belong to the chunk reader. After a walk the model leaves the cursor at the end of the RIFF header.
- `CodecParameters`, `Stream` and `Tag` keep only the fields the demuxer writes. The codec values come from the parsers and are opaque numbers here.
- `next_packet`: plain I/O over the raw stream.
- `supported_formats`: registration metadata.
- The `tags`, `visuals` and `streams` accessors: they only return fields (there are no visuals).
- The `eprintln!` diagnostics: console output only.
- The `tests` module: it reads a file from disk and names items that no longer exist.
- Integer widths: `u16`, `u32` and `u64` are modelled as integer ranges. The widening casts at lines 198, 199, 210, 211 and 228 cannot overflow, so they need no wrap-around.
