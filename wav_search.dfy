/**
 * The bounded search for the four-byte stream marker (`search_for_marker`).
 *
 * A search starting at cursor position `p` first reads a four-byte window.
 * The window at offset `k` holds the bytes `p + k .. p + k + 4`; after it
 * has been read, `k + 4` bytes have been consumed. A shallow search looks at
 * the first window only. A deep search shifts the window by one byte at a
 * time while at most `WAVE_PROBE_SEARCH_LIMIT` bytes have been consumed, so
 * it looks at the windows at offsets `0 .. WAVE_PROBE_SEARCH_LIMIT - 3` and
 * consumes at most `WAVE_PROBE_SEARCH_LIMIT + 1` bytes.
 */
module WavSearch {
  import opened SonataCore

  /** The recommended largest number of bytes consumed before the marker search gives up. */
  const WAVE_PROBE_SEARCH_LIMIT: nat := 512 * 1024

  /** What a search returns, and how many bytes it consumed from `p`. */
  datatype Search = Search(outcome: Result<Option<Quad>>, consumed: nat)

  /** The window at offset `k` from `p` exists and equals `marker`. */
  predicate MatchesAt(s: seq<bv8>, p: nat, k: nat, marker: Quad) {
    p + k + 4 <= |s| && s[p + k..p + k + 4] == marker
  }

  /** No window at an offset in `[i, k)` from `p` equals `marker`. */
  predicate NoMatchBetween(s: seq<bv8>, p: nat, marker: Quad, i: nat, k: nat) {
    forall j :: i <= j < k ==> !MatchesAt(s, p, j, marker)
  }

  /**
   * The search from the point where the window at offset `k` has just been
   * read: the loop of `search_for_marker`, one iteration per offset.
   */
  function Scan(s: seq<bv8>, p: nat, marker: Quad, depth: ProbeDepth, k: nat): (r: Search)
    requires p + k + 4 <= |s|
    requires k + 4 <= WAVE_PROBE_SEARCH_LIMIT + 1
    ensures k + 4 <= r.consumed <= WAVE_PROBE_SEARCH_LIMIT + 1
    ensures p + r.consumed <= |s|
    decreases WAVE_PROBE_SEARCH_LIMIT - k
  {
    if s[p + k..p + k + 4] == marker then
      Search(Ok(Some(marker)), k + 4)
    else if depth == Deep then
      if k + 4 <= WAVE_PROBE_SEARCH_LIMIT then
        if p + k + 4 < |s| then Scan(s, p, marker, depth, k + 1)
        else Search(Err(UnexpectedEof), k + 4)
      else
        Search(Ok(None), k + 4)
    else
      Search(Ok(None), k + 4)
  }

  /** The whole search from cursor position `p`, the first window's read included. */
  function SearchSpec(s: seq<bv8>, p: nat, marker: Quad, depth: ProbeDepth): (r: Search)
    requires p <= |s|
    ensures p + r.consumed <= |s|
  {
    if p + 4 > |s| then Search(Err(UnexpectedEof), |s| - p)
    else Scan(s, p, marker, depth, 0)
  }

  /**
   * `search_for_marker`: reads into a four-byte window, then compares and,
   * for a deep search, shifts the window in place one byte at a time.
   */
  method SearchForMarker(reader: MediaSourceStream, marker: Quad, depth: ProbeDepth)
    returns (r: Result<Option<Quad>>)
    requires reader.Valid()
    modifies reader
    ensures reader.Valid()
    ensures var sr := SearchSpec(reader.data, old(reader.pos), marker, depth);
      r == sr.outcome && reader.pos == old(reader.pos) + sr.consumed
  {
    ghost var s, p0 := reader.data, reader.pos;
    var window := new bv8[4];
    var read := reader.ReadBufBytes(window);
    if read.Err? {
      return Err(read.error);
    }
    var probedBytes: nat := 4;
    // The loop runs while a deep search within the limit has not matched;
    // the two ways out without a match both end in `Ok(None)`.
    while window[..] != marker && depth == Deep && probedBytes <= WAVE_PROBE_SEARCH_LIMIT
      invariant reader.Valid() && reader.data == s
      invariant 4 <= probedBytes <= WAVE_PROBE_SEARCH_LIMIT + 1
      invariant reader.pos == p0 + probedBytes
      invariant window[..] == s[p0 + probedBytes - 4..p0 + probedBytes]
      invariant depth == Deep || probedBytes == 4
      invariant NoMatchBetween(s, p0, marker, 0, probedBytes - 4)
      decreases WAVE_PROBE_SEARCH_LIMIT + 1 - probedBytes
    {
      var next := reader.ReadU8();
      if next.Err? {
        ScanSkips(s, p0, marker, depth, 0, probedBytes - 4);
        return Err(next.error);
      }
      assert !MatchesAt(s, p0, probedBytes - 4, marker);
      ShiftIn(window, next.value);
      WindowShift(s, p0 + probedBytes - 4);
      probedBytes := probedBytes + 1;
    }
    ScanSkips(s, p0, marker, depth, 0, probedBytes - 4);
    if window[..] == marker {
      return Ok(Some(marker));
    }
    return Ok(None);
  }

  /**
   * A deep search passes over windows that do not match: from offset `i`
   * it goes on as it would from offset `k`.
   */
  lemma {:induction false} ScanSkips(s: seq<bv8>, p: nat, marker: Quad, depth: ProbeDepth, i: nat, k: nat)
    requires i <= k && p + k + 4 <= |s| && k + 4 <= WAVE_PROBE_SEARCH_LIMIT + 1
    requires depth == Deep || i == k
    requires NoMatchBetween(s, p, marker, i, k)
    ensures Scan(s, p, marker, depth, i) == Scan(s, p, marker, depth, k)
    decreases k - i
  {
    if i < k {
      assert !MatchesAt(s, p, i, marker);
      ScanSkips(s, p, marker, depth, i + 1, k);
    }
  }

  /** Shifts `window` left by one byte in place and puts `b` in its last slot. */
  method ShiftIn(window: array<bv8>, b: bv8)
    requires window.Length == 4
    modifies window
    ensures window[..] == old(window[..])[1..] + [b]
  {
    window[0], window[1], window[2], window[3] := window[1], window[2], window[3], b;
  }

  /** The window one byte further on is the old window's tail and the next byte. */
  lemma WindowShift(s: seq<bv8>, a: nat)
    requires a + 5 <= |s|
    ensures s[a + 1..a + 5] == s[a..a + 4][1..] + [s[a + 4]]
  {
  }

  /** A search that finds the marker returns the marker, at the first window equal to it. */
  lemma {:induction false} ScanFoundIsFirst(s: seq<bv8>, p: nat, marker: Quad, depth: ProbeDepth, k: nat)
    requires p + k + 4 <= |s|
    requires k + 4 <= WAVE_PROBE_SEARCH_LIMIT + 1
    ensures var r := Scan(s, p, marker, depth, k);
      r.outcome.Ok? && r.outcome.value.Some? ==>
        r.outcome.value.value == marker &&
        MatchesAt(s, p, r.consumed - 4, marker) &&
        forall j :: k <= j < r.consumed - 4 ==> !MatchesAt(s, p, j, marker)
    decreases WAVE_PROBE_SEARCH_LIMIT - k
  {
    if s[p + k..p + k + 4] != marker && depth == Deep && k + 4 <= WAVE_PROBE_SEARCH_LIMIT && p + k + 4 < |s| {
      ScanFoundIsFirst(s, p, marker, depth, k + 1);
    }
  }

  /**
   * A search that gives up, or runs out of bytes, saw no window equal to the
   * marker: a shallow one consumed exactly the first window; a deep one that
   * gives up consumed `WAVE_PROBE_SEARCH_LIMIT + 1` bytes, and one that ran
   * out of bytes consumed all of them, which were no more than
   * `WAVE_PROBE_SEARCH_LIMIT`.
   */
  lemma {:induction false} ScanNotFound(s: seq<bv8>, p: nat, marker: Quad, depth: ProbeDepth, k: nat)
    requires p + k + 4 <= |s|
    requires k + 4 <= WAVE_PROBE_SEARCH_LIMIT + 1
    ensures var r := Scan(s, p, marker, depth, k);
      !(r.outcome.Ok? && r.outcome.value.Some?) ==>
        (forall j :: k <= j <= r.consumed - 4 ==> !MatchesAt(s, p, j, marker)) &&
        (depth == Shallow ==> r == Search(Ok(None), k + 4)) &&
        (depth == Deep && r.outcome.Ok? ==> r.consumed == WAVE_PROBE_SEARCH_LIMIT + 1) &&
        (r.outcome.Err? ==>
           r.outcome.error == UnexpectedEof && p + r.consumed == |s| && r.consumed <= WAVE_PROBE_SEARCH_LIMIT)
    decreases WAVE_PROBE_SEARCH_LIMIT - k
  {
    if s[p + k..p + k + 4] != marker && depth == Deep && k + 4 <= WAVE_PROBE_SEARCH_LIMIT && p + k + 4 < |s| {
      ScanNotFound(s, p, marker, depth, k + 1);
    }
  }

  /**
   * A deep search reaches every window within the limit: when the window at
   * offset `j` is the first to equal the marker, the search returns it
   * after consuming exactly `j + 4` bytes.
   */
  lemma {:induction false} ScanFindsFirst(s: seq<bv8>, p: nat, marker: Quad, k: nat, j: nat)
    requires p + k + 4 <= |s|
    requires k <= j && j + 4 <= WAVE_PROBE_SEARCH_LIMIT + 1
    requires MatchesAt(s, p, j, marker)
    requires forall i :: k <= i < j ==> !MatchesAt(s, p, i, marker)
    ensures Scan(s, p, marker, Deep, k) == Search(Ok(Some(marker)), j + 4)
    decreases j - k
  {
    if k < j {
      assert !MatchesAt(s, p, k, marker);
      ScanFindsFirst(s, p, marker, k + 1, j);
    }
  }

  /**
   * A shallow search consumes exactly four bytes and finds the marker
   * exactly when those bytes are the marker.
   */
  lemma ShallowSearchExact(s: seq<bv8>, p: nat, marker: Quad)
    requires p + 4 <= |s|
    ensures var r := SearchSpec(s, p, marker, Shallow);
      r.consumed == 4 &&
      (r.outcome == Ok(Some(marker)) <==> s[p..p + 4] == marker) &&
      (r.outcome != Ok(Some(marker)) <==> r.outcome == Ok(None))
  {
  }

  /**
   * Whatever the depth, a successful search returns the marker itself, the
   * last four bytes consumed are the marker, and no earlier window was.
   */
  lemma SearchFoundIsFirst(s: seq<bv8>, p: nat, marker: Quad, depth: ProbeDepth)
    requires p <= |s|
    ensures var r := SearchSpec(s, p, marker, depth);
      r.outcome.Ok? && r.outcome.value.Some? ==>
        r.outcome.value.value == marker && 4 <= r.consumed &&
        s[p + r.consumed - 4..p + r.consumed] == marker &&
        forall j :: 0 <= j < r.consumed - 4 ==> !MatchesAt(s, p, j, marker)
  {
    if p + 4 <= |s| {
      ScanFoundIsFirst(s, p, marker, depth, 0);
    }
  }

  /**
   * The search never consumes more than `WAVE_PROBE_SEARCH_LIMIT + 1`
   * bytes. When it returns `None` no window it could see matched: a deep
   * search then consumed exactly `WAVE_PROBE_SEARCH_LIMIT + 1` bytes and a
   * shallow one exactly four. It fails only when the stream ends first,
   * within `WAVE_PROBE_SEARCH_LIMIT` bytes.
   */
  lemma SearchNotFound(s: seq<bv8>, p: nat, marker: Quad, depth: ProbeDepth)
    requires p <= |s|
    ensures SearchSpec(s, p, marker, depth).consumed <= WAVE_PROBE_SEARCH_LIMIT + 1
    ensures var r := SearchSpec(s, p, marker, depth);
      r.outcome == Ok(None) ==>
        (forall j :: 0 <= j <= r.consumed - 4 ==> !MatchesAt(s, p, j, marker)) &&
        r.consumed == (if depth == Deep then WAVE_PROBE_SEARCH_LIMIT + 1 else 4)
    ensures var r := SearchSpec(s, p, marker, depth);
      r.outcome.Err? ==>
        r.outcome.error == UnexpectedEof && p + r.consumed == |s| && r.consumed <= WAVE_PROBE_SEARCH_LIMIT
  {
    if p + 4 <= |s| {
      ScanNotFound(s, p, marker, depth, 0);
    }
  }

  /**
   * A deep search finds the first occurrence of the marker that starts
   * within `WAVE_PROBE_SEARCH_LIMIT - 3` bytes of the cursor.
   */
  lemma DeepSearchFindsFirst(s: seq<bv8>, p: nat, marker: Quad, j: nat)
    requires j + 4 <= WAVE_PROBE_SEARCH_LIMIT + 1
    requires MatchesAt(s, p, j, marker)
    requires forall i :: 0 <= i < j ==> !MatchesAt(s, p, i, marker)
    ensures SearchSpec(s, p, marker, Deep) == Search(Ok(Some(marker)), j + 4)
  {
    ScanFindsFirst(s, p, marker, 0, j);
  }
}
