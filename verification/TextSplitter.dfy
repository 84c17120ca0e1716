// Splitting of a text into overlapping windows of tokens.

module TextSplitter {
  import opened Wrappers

  /** Where a token lies in the text. */
  datatype Span = Span(start: nat, end: nat)

  datatype SplitError = ZeroStep

  function Min(a: int, b: int): int {
    if a < b then a else b
  }

  /** A slice, which stops at the end of the text. */
  function Slice(text: string, start: nat, end: nat): string {
    if start < end && start < |text| then text[start..Min(end, |text|)] else ""
  }

  /** The text of the window of at most `size` tokens that starts at token i. */
  function ChunkAt(text: string, offsets: seq<Span>, i: nat, size: nat): string
    requires i < |offsets| && size > 0
  {
    Slice(text, offsets[i].start, offsets[Min(i + size, |offsets|) - 1].end)
  }

  /** ⌈tokens / step⌉ */
  function ChunkCount(tokens: nat, step: nat): nat
    requires step > 0
  {
    (tokens + step - 1) / step
  }

  function Start(k: nat, step: nat): nat {
    k * step
  }

  /** The chunks are the windows that start at every step-th token. */
  ghost predicate AreWindows(chunks: seq<string>, text: string, offsets: seq<Span>, size: nat, step: nat)
    requires size > 0
  {
    forall k :: 0 <= k < |chunks| ==>
      Start(k, step) < |offsets| && chunks[k] == ChunkAt(text, offsets, Start(k, step), size)
  }

  lemma TimesMonotone(a: int, b: int, d: nat)
    requires a <= b
    ensures a * d <= b * d
  {
    assert (b - a) * d == b * d - a * d;
  }

  lemma QuotientIs(x: nat, d: nat, q: nat)
    requires d > 0 && q * d <= x < q * d + d
    ensures x / d == q
  {
    var p := x / d;
    assert x == p * d + x % d;
    TimesMonotone(p + 1, if p < q then q else p + 1, d);
    TimesMonotone(q + 1, if p > q then p else q + 1, d);
  }

  lemma ChunkCountIs(tokens: nat, step: nat, count: nat)
    requires step > 0 && tokens <= Start(count, step) < tokens + step
    ensures ChunkCount(tokens, step) == count
  {
    QuotientIs(tokens + step - 1, step, count);
  }

  /** The last window starts inside the text, and the next would not. */
  lemma LastStart(tokens: nat, step: nat)
    requires step > 0
    ensures Start(ChunkCount(tokens, step), step) >= tokens
    ensures tokens > 0 ==> ChunkCount(tokens, step) > 0 && Start(ChunkCount(tokens, step) - 1, step) < tokens
  {
    var x := tokens + step - 1;
    assert x == x / step * step + x % step;
    if tokens > 0 {
      QuotientPositive(x, step);
      assert Start(ChunkCount(tokens, step) - 1, step) == x / step * step - step;
    }
  }

  lemma QuotientPositive(x: nat, d: nat)
    requires 0 < d <= x
    ensures x / d > 0
  {
    var p, m := x / d, x % d;
    assert x == p * d + m && m < d;
    TimesMonotone(p, if p <= 0 then 0 else p, d);
  }

  lemma NextStart(k: nat, step: nat)
    ensures Start(k + 1, step) == Start(k, step) + step
  {
  }

  lemma StartsIncrease(j: nat, k: nat, step: nat)
    requires j <= k
    ensures Start(j, step) <= Start(k, step)
  {
    assert (k - j) * step == k * step - j * step;
  }

  /** The chunks of a tokenized text. Without a step there is an error, and with a negative one no chunk. */
  method SplitIntoChunks(text: string, offsets: seq<Span>, size: int, overlap: int)
      returns (r: Result<seq<string>, SplitError>)
    requires size > 0
    ensures r.Err? <==> overlap == size
    ensures overlap > size ==> r == Ok([])
    ensures overlap < size ==>
              && |r.value| == ChunkCount(|offsets|, size - overlap)
              && AreWindows(r.value, text, offsets, size, size - overlap)
  {
    var step := size - overlap;
    if step == 0 {
      return Err(ZeroStep);
    }
    var chunks := [];
    if step > 0 {
      var i := 0;
      while i < |offsets|
        invariant i == Start(|chunks|, step) < |offsets| + step
        invariant AreWindows(chunks, text, offsets, size, step)
      {
        NextStart(|chunks|, step);
        chunks := chunks + [ChunkAt(text, offsets, i, size)];
        i := i + step;
      }
      ChunkCountIs(|offsets|, step, |chunks|);
    }
    return Ok(chunks);
  }

  // ---------------------------------------------------------------------------
  // What the windows cover and share
  // ---------------------------------------------------------------------------

  /** The token after the last of window k. */
  function End(tokens: nat, size: nat, step: nat, k: nat): nat {
    Min(Start(k, step) + size, tokens)
  }

  /** For an overlap below the size, every window holds between one token and `size` tokens, the next window
      starts inside it or directly behind it, the two share min(overlap, what is left) tokens, and the last
      window ends with the text. */
  lemma WindowsShare(tokens: nat, size: nat, overlap: nat, k: nat)
    requires overlap < size && k < ChunkCount(tokens, size - overlap)
    ensures var step := size - overlap;
            && Start(k, step) < End(tokens, size, step, k) <= Start(k, step) + size
            && (k + 1 < ChunkCount(tokens, step) ==>
                  End(tokens, size, step, k) - Start(k + 1, step) == Min(overlap, tokens - Start(k + 1, step)))
            && (k + 1 == ChunkCount(tokens, step) ==> End(tokens, size, step, k) == tokens)
  {
    var step := size - overlap;
    NoTokensNoChunks(tokens, step);
    LastStart(tokens, step);
    StartsIncrease(k, ChunkCount(tokens, step) - 1, step);
    NextStart(k, step);
  }

  lemma NoTokensNoChunks(tokens: nat, step: nat)
    requires step > 0
    ensures tokens == 0 <==> ChunkCount(tokens, step) == 0
  {
    LastStart(tokens, step);
    if tokens == 0 {
      QuotientIs(step - 1, step, 0);
    }
  }

  /** Every token lies in a window. */
  lemma EveryTokenCovered(tokens: nat, size: nat, overlap: nat, t: nat) returns (k: nat)
    requires overlap < size && t < tokens
    ensures var step := size - overlap;
            k < ChunkCount(tokens, step) && Start(k, step) <= t < End(tokens, size, step, k)
  {
    var step := size - overlap;
    k := t / step;
    assert t == t / step * step + t % step;
    LastStart(tokens, step);
    if k >= ChunkCount(tokens, step) {
      StartsIncrease(ChunkCount(tokens, step), k, step);
    }
  }

  // ---------------------------------------------------------------------------
  // Stitching the chunks together again
  // ---------------------------------------------------------------------------

  /** Tokens come in order and inside the text. They may share characters, as parts of one character do. */
  ghost predicate InOrder(text: string, offsets: seq<Span>) {
    && (forall i :: 0 <= i < |offsets| ==> offsets[i].start <= offsets[i].end <= |text|)
    && (forall i, j :: 0 <= i < j < |offsets| ==>
          offsets[i].start <= offsets[j].start && offsets[i].end <= offsets[j].end)
  }

  /** Characters from the start of window k to the start of the next. */
  function CutLength(offsets: seq<Span>, step: nat, k: nat): int {
    if Start(k, step) < |offsets| && Start(k + 1, step) < |offsets|
    then offsets[Start(k + 1, step)].start - offsets[Start(k, step)].start
    else 0
  }

  /** The chunks from k on, each cut where the next begins. */
  function Stitched(chunks: seq<string>, offsets: seq<Span>, step: nat, k: nat): string
    requires k < |chunks|
    decreases |chunks| - k
  {
    if k + 1 == |chunks| then chunks[k]
    else
      var cut := CutLength(offsets, step, k);
      (if 0 <= cut <= |chunks[k]| then chunks[k][..cut] else chunks[k]) + Stitched(chunks, offsets, step, k + 1)
  }

  lemma SliceIsRange(text: string, start: nat, end: nat)
    requires start <= end <= |text|
    ensures Slice(text, start, end) == text[start..end]
  {
  }

  lemma ChunkIsRange(text: string, offsets: seq<Span>, size: nat, step: nat, k: nat)
    requires InOrder(text, offsets) && size > 0 && Start(k, step) < |offsets|
    ensures var first, last := offsets[Start(k, step)], offsets[End(|offsets|, size, step, k) - 1];
            && first.start <= last.end <= |text|
            && ChunkAt(text, offsets, Start(k, step), size) == text[first.start..last.end]
  {
    var i, j := Start(k, step), End(|offsets|, size, step, k) - 1;
    assert i == j || i < j;
    SliceIsRange(text, offsets[i].start, offsets[j].end);
  }

  lemma CutsMeet(text: string, a: nat, b: nat, c: nat, e: nat)
    requires a <= b <= c <= |text| && b <= e <= |text|
    ensures text[a..c][..b - a] + text[b..e] == text[a..e]
  {
  }

  /** The windows of a splitting. */
  ghost predicate Splitting(text: string, offsets: seq<Span>, size: nat, overlap: nat, chunks: seq<string>) {
    && InOrder(text, offsets) && overlap < size
    && |chunks| == ChunkCount(|offsets|, size - overlap)
    && AreWindows(chunks, text, offsets, size, size - overlap)
  }

  /** Chunk k reaches from its first token to the end of its last; the cut lies inside. */
  lemma ChunkReaches(text: string, offsets: seq<Span>, size: nat, overlap: nat, chunks: seq<string>, k: nat)
    requires Splitting(text, offsets, size, overlap, chunks) && k < |chunks|
    ensures var step := size - overlap;
            && Start(k, step) < End(|offsets|, size, step, k) <= |offsets|
            && var first, last := offsets[Start(k, step)].start, offsets[End(|offsets|, size, step, k) - 1].end;
            && first <= last <= |text|
            && chunks[k] == text[first..last]
            && last <= offsets[|offsets| - 1].end <= |text|
            && (k + 1 == |chunks| ==> last == offsets[|offsets| - 1].end)
  {
    WindowsShare(|offsets|, size, overlap, k);
    ChunkIsRange(text, offsets, size, size - overlap, k);
    var e := End(|offsets|, size, size - overlap, k) - 1;
    assert e == |offsets| - 1 || offsets[e].end <= offsets[|offsets| - 1].end;
  }

  lemma CutInside(text: string, offsets: seq<Span>, size: nat, overlap: nat, chunks: seq<string>, k: nat)
    requires Splitting(text, offsets, size, overlap, chunks) && k + 1 < |chunks| && 1 <= overlap
    ensures var step := size - overlap;
            && Start(k, step) < Start(k + 1, step) < End(|offsets|, size, step, k) <= |offsets|
            && var i, j, e := Start(k, step), Start(k + 1, step), End(|offsets|, size, step, k) - 1;
               offsets[i].start <= offsets[j].start <= offsets[e].end
  {
    var step := size - overlap;
    WindowsShare(|offsets|, size, overlap, k);
    NextStart(k, step);
    var j, e := Start(k + 1, step), End(|offsets|, size, step, k) - 1;
    assert Start(k + 1, step) < |offsets|;
    assert j == e || j < e;
    assert offsets[j].start <= offsets[j].end <= offsets[e].end;
  }

  lemma {:induction false} StitchedFrom(text: string, offsets: seq<Span>, size: nat, overlap: nat,
                                        chunks: seq<string>, k: nat)
    requires Splitting(text, offsets, size, overlap, chunks) && 1 <= overlap
    requires k < |chunks|
    ensures Start(k, size - overlap) < |offsets|
    ensures offsets[Start(k, size - overlap)].start <= offsets[|offsets| - 1].end <= |text|
    ensures Stitched(chunks, offsets, size - overlap, k)
         == text[offsets[Start(k, size - overlap)].start..offsets[|offsets| - 1].end]
    decreases |chunks| - k
  {
    if k + 1 < |chunks| {
      StitchedFrom(text, offsets, size, overlap, chunks, k + 1);
      StitchOne(text, offsets, size, overlap, chunks, k);
    } else {
      ChunkReaches(text, offsets, size, overlap, chunks, k);
    }
  }

  lemma StitchOne(text: string, offsets: seq<Span>, size: nat, overlap: nat, chunks: seq<string>, k: nat)
    requires Splitting(text, offsets, size, overlap, chunks) && 1 <= overlap && k + 1 < |chunks|
    ensures Start(k, size - overlap) < |offsets| && Start(k + 1, size - overlap) < |offsets|
    ensures var a, b := offsets[Start(k, size - overlap)].start, offsets[Start(k + 1, size - overlap)].start;
            var end := offsets[|offsets| - 1].end;
            && a <= b && a <= end <= |text|
            && (b <= end && Stitched(chunks, offsets, size - overlap, k + 1) == text[b..end] ==>
                  Stitched(chunks, offsets, size - overlap, k) == text[a..end])
  {
    ChunkReaches(text, offsets, size, overlap, chunks, k);
    CutInside(text, offsets, size, overlap, chunks, k);
    var step := size - overlap;
    var i, j, e := Start(k, step), Start(k + 1, step), End(|offsets|, size, step, k) - 1;
    CutsMeet(text, offsets[i].start, offsets[j].start, offsets[e].end, offsets[|offsets| - 1].end);
    StitchedUnfolds(chunks, offsets, step, k);
  }

  lemma StitchedUnfolds(chunks: seq<string>, offsets: seq<Span>, step: nat, k: nat)
    requires k + 1 < |chunks| && 0 <= CutLength(offsets, step, k) <= |chunks[k]|
    ensures Stitched(chunks, offsets, step, k)
         == chunks[k][..CutLength(offsets, step, k)] + Stitched(chunks, offsets, step, k + 1)
  {
  }

  /** With an overlap of at least one token no character is lost, whatever lies between the tokens: cutting
      every chunk where the next begins and joining them gives the text from the first token to the last. */
  lemma ChunksStitchTogether(text: string, offsets: seq<Span>, size: nat, overlap: nat, chunks: seq<string>)
    requires Splitting(text, offsets, size, overlap, chunks) && 1 <= overlap && offsets != []
    ensures chunks != [] && offsets[0].start <= offsets[|offsets| - 1].end <= |text|
    ensures Stitched(chunks, offsets, size - overlap, 0) == text[offsets[0].start..offsets[|offsets| - 1].end]
  {
    NoTokensNoChunks(|offsets|, size - overlap);
    StitchedFrom(text, offsets, size, overlap, chunks, 0);
  }

  // ---------------------------------------------------------------------------
  // Without overlap
  // ---------------------------------------------------------------------------

  function JoinedFrom(chunks: seq<string>, k: nat): string
    requires k <= |chunks|
    decreases |chunks| - k
  {
    if k == |chunks| then "" else chunks[k] + JoinedFrom(chunks, k + 1)
  }

  /** Characters between the last token of window k and the next token. */
  function Gap(offsets: seq<Span>, size: nat, k: nat): int {
    var next := Start(k + 1, size);
    if 0 < next < |offsets| then offsets[next].start - offsets[next - 1].end else 0
  }

  function Gaps(offsets: seq<Span>, size: nat, k: nat, count: nat): int
    decreases count - k
  {
    if k >= count then 0 else Gap(offsets, size, k) + Gaps(offsets, size, k + 1, count)
  }

  /** No two tokens share characters. */
  ghost predicate Apart(offsets: seq<Span>) {
    forall i, j :: 0 <= i < j < |offsets| ==> offsets[i].end <= offsets[j].start
  }

  lemma {:induction false} GapsVanish(offsets: seq<Span>, size: nat, k: nat, count: nat)
    requires Apart(offsets)
    ensures Gaps(offsets, size, k, count) >= 0
    ensures Gaps(offsets, size, k, count) == 0 <==> forall j :: k <= j < count ==> Gap(offsets, size, j) == 0
    decreases count - k
  {
    if k < count {
      GapsVanish(offsets, size, k + 1, count);
      assert Gap(offsets, size, k) >= 0;
    }
  }

  /** Joined, the chunks from k on are shorter than their part of the text by the gaps between them. */
  ghost predicate LacksGaps(text: string, offsets: seq<Span>, size: nat, chunks: seq<string>, k: nat)
    requires k < |chunks|
  {
    && Start(k, size) < |offsets|
    && var a, e := offsets[Start(k, size)].start, offsets[|offsets| - 1].end;
       && a <= e <= |text|
       && |JoinedFrom(chunks, k)| == e - a - Gaps(offsets, size, k, |chunks|)
       && (Gaps(offsets, size, k, |chunks|) == 0 ==> JoinedFrom(chunks, k) == text[a..e])
  }

  lemma LastLacksGaps(text: string, offsets: seq<Span>, size: nat, chunks: seq<string>, k: nat)
    requires Splitting(text, offsets, size, 0, chunks) && k + 1 == |chunks|
    ensures LacksGaps(text, offsets, size, chunks, k)
  {
    var a, e := LastReaches(text, offsets, size, chunks, k);
    NoGapBehindLast(offsets, size, chunks, k);
  }

  lemma LastReaches(text: string, offsets: seq<Span>, size: nat, chunks: seq<string>, k: nat) returns (a: nat, e: nat)
    requires Splitting(text, offsets, size, 0, chunks) && k + 1 == |chunks|
    ensures size > 0 && |chunks| == ChunkCount(|offsets|, size) && Start(k, size) < |offsets|
    ensures a == offsets[Start(k, size)].start <= e == offsets[|offsets| - 1].end <= |text|
    ensures chunks[k] == text[a..e]
  {
    ChunkReaches(text, offsets, size, 0, chunks, k);
    a, e := offsets[Start(k, size)].start, offsets[|offsets| - 1].end;
  }

  /** Chunk k ends at character b, and the gap behind it reaches to the next chunk. */
  ghost predicate EndsBefore(text: string, offsets: seq<Span>, size: nat, chunks: seq<string>, k: nat, b: nat)
    requires k < |chunks|
  {
    && Start(k, size) < |offsets| && Start(k + 1, size) < |offsets|
    && offsets[Start(k, size)].start <= b <= offsets[Start(k + 1, size)].start
    && b <= |text| && chunks[k] == text[offsets[Start(k, size)].start..b]
    && Gap(offsets, size, k) == offsets[Start(k + 1, size)].start - b
  }

  lemma ChunkEndsBefore(text: string, offsets: seq<Span>, size: nat, chunks: seq<string>, k: nat) returns (b: nat)
    requires Splitting(text, offsets, size, 0, chunks) && Apart(offsets) && k + 1 < |chunks|
    ensures EndsBefore(text, offsets, size, chunks, k, b)
  {
    ChunkReaches(text, offsets, size, 0, chunks, k);
    GapBehind(text, offsets, size, chunks, k);
    b := offsets[Start(k + 1, size) - 1].end;
  }

  lemma AddChunk(text: string, offsets: seq<Span>, size: nat, chunks: seq<string>, k: nat, b: nat)
    requires k + 1 < |chunks| && LacksGaps(text, offsets, size, chunks, k + 1)
    requires EndsBefore(text, offsets, size, chunks, k, b) && Gaps(offsets, size, k + 1, |chunks|) >= 0
    ensures LacksGaps(text, offsets, size, chunks, k)
  {
    RangesMeet(text, offsets[Start(k, size)].start, b, offsets[Start(k + 1, size)].start, offsets[|offsets| - 1].end,
               chunks[k], JoinedFrom(chunks, k + 1), Gaps(offsets, size, k + 1, |chunks|));
    JoinFirst(offsets, size, chunks, k);
  }

  lemma NextLacksGaps(text: string, offsets: seq<Span>, size: nat, chunks: seq<string>, k: nat)
    requires Splitting(text, offsets, size, 0, chunks) && Apart(offsets) && k + 1 < |chunks|
    requires LacksGaps(text, offsets, size, chunks, k + 1)
    ensures LacksGaps(text, offsets, size, chunks, k)
  {
    var b := ChunkEndsBefore(text, offsets, size, chunks, k);
    GapsVanish(offsets, size, k + 1, |chunks|);
    AddChunk(text, offsets, size, chunks, k, b);
  }

  lemma JoinFirst(offsets: seq<Span>, size: nat, chunks: seq<string>, k: nat)
    requires k < |chunks|
    ensures JoinedFrom(chunks, k) == chunks[k] + JoinedFrom(chunks, k + 1)
    ensures Gaps(offsets, size, k, |chunks|) == Gap(offsets, size, k) + Gaps(offsets, size, k + 1, |chunks|)
  {
  }

  lemma {:induction false} JoinedLacksGaps(text: string, offsets: seq<Span>, size: nat, chunks: seq<string>, k: nat)
    requires Splitting(text, offsets, size, 0, chunks) && Apart(offsets) && k < |chunks|
    ensures LacksGaps(text, offsets, size, chunks, k)
    decreases |chunks| - k
  {
    if k + 1 < |chunks| {
      JoinedLacksGaps(text, offsets, size, chunks, k + 1);
      NextLacksGaps(text, offsets, size, chunks, k);
    } else {
      LastLacksGaps(text, offsets, size, chunks, k);
    }
  }

  lemma GapBehind(text: string, offsets: seq<Span>, size: nat, chunks: seq<string>, k: nat)
    requires Splitting(text, offsets, size, 0, chunks) && Apart(offsets) && k + 1 < |chunks|
    ensures 0 < Start(k + 1, size) < |offsets|
    ensures var j := Start(k + 1, size);
            && End(|offsets|, size, size, k) == j
            && Gap(offsets, size, k) == offsets[j].start - offsets[j - 1].end >= 0
  {
    WindowsShare(|offsets|, size, 0, k);
    LastStart(|offsets|, size);
    StartsIncrease(k + 1, |chunks| - 1, size);
    NextStart(k, size);
  }

  lemma NoGapBehindLast(offsets: seq<Span>, size: nat, chunks: seq<string>, k: nat)
    requires size > 0 && k + 1 == |chunks| == ChunkCount(|offsets|, size)
    ensures Gaps(offsets, size, k, |chunks|) == 0 && JoinedFrom(chunks, k) == chunks[k]
  {
    LastStart(|offsets|, size);
    assert JoinedFrom(chunks, k) == chunks[k] + JoinedFrom(chunks, k + 1);
  }

  lemma RangesMeet(text: string, a: nat, b: nat, c: nat, e: nat, chunk: string, rest: string, gaps: int)
    requires a <= b <= c <= e <= |text| && chunk == text[a..b]
    requires gaps >= 0 && |rest| == e - c - gaps && (gaps == 0 ==> rest == text[c..e])
    ensures |chunk + rest| == e - a - (c - b + gaps)
    ensures c - b + gaps == 0 ==> chunk + rest == text[a..e]
  {
  }

  /** Without overlap the chunks join to the text from the first token to the last exactly if nothing lies
      between the last token of a chunk and the first of the next. */
  lemma ChunksJoinIff(text: string, offsets: seq<Span>, size: nat, chunks: seq<string>)
    requires Splitting(text, offsets, size, 0, chunks) && Apart(offsets) && offsets != []
    ensures chunks != [] && offsets[0].start <= offsets[|offsets| - 1].end <= |text|
    ensures JoinedFrom(chunks, 0) == text[offsets[0].start..offsets[|offsets| - 1].end]
       <==> forall k :: 0 <= k < |chunks| ==> Gap(offsets, size, k) == 0
  {
    NoTokensNoChunks(|offsets|, size);
    JoinedLacksGaps(text, offsets, size, chunks, 0);
    GapsVanish(offsets, size, 0, |chunks|);
  }

  // ---------------------------------------------------------------------------
  // The configurations that are let through
  // ---------------------------------------------------------------------------

  const DEFAULT_SIZE := 1024
  const DEFAULT_OVERLAP := 150

  /** The check of a split task: the size is positive and the overlap is not negative and below the size.
      Both are only looked at when they are given; a default is not checked against the other value. */
  predicate Accepted(size: Option<int>, overlap: Option<int>) {
    && (size.Some? ==> size.value > 0)
    && (overlap.Some? ==> 0 <= overlap.value < size.GetOr(DEFAULT_SIZE))
  }

  /** Which settings a split task may give. */
  lemma AcceptedSettings(size: int, overlap: int)
    ensures Accepted(Some(size), Some(overlap)) <==> 0 <= overlap < size
    ensures Accepted(Some(size), None) <==> size >= 1
    ensures Accepted(None, Some(overlap)) <==> 0 <= overlap <= 1023
    ensures Accepted(None, None)
  {
  }

  /** The chunks of a text under an accepted task. The check does not keep the overlap below the size: when the
      overlap is defaulted and the given size is no larger, the split fails, or the text comes out without a
      chunk. Under every other accepted task each text with tokens comes out in ⌈tokens / step⌉ windows. */
  method SplitAsConfigured(text: string, offsets: seq<Span>, size: Option<int>, overlap: Option<int>)
      returns (r: Result<seq<string>, SplitError>)
    requires Accepted(size, overlap) && offsets != []
    ensures r.Err? <==> overlap.None? && size == Some(150)
    ensures r == Ok([]) <==> overlap.None? && size.Some? && size.value < 150
    ensures r.Ok? && r.value != [] ==>
              var step := size.GetOr(1024) - overlap.GetOr(150);
              && step > 0 && |r.value| == ChunkCount(|offsets|, step)
              && AreWindows(r.value, text, offsets, size.GetOr(1024), step)
  {
    r := SplitIntoChunks(text, offsets, size.GetOr(DEFAULT_SIZE), overlap.GetOr(DEFAULT_OVERLAP));
    if size.GetOr(DEFAULT_SIZE) > overlap.GetOr(DEFAULT_OVERLAP) {
      NoTokensNoChunks(|offsets|, size.GetOr(DEFAULT_SIZE) - overlap.GetOr(DEFAULT_OVERLAP));
    }
  }

  /** A task that gives neither value cuts a text into windows of 1024 tokens, one at every 874th. */
  method SplitByDefault(text: string, offsets: seq<Span>) returns (chunks: seq<string>)
    requires offsets != []
    ensures |chunks| == (|offsets| + 873) / 874
    ensures forall k :: 0 <= k < |chunks| ==>
              k * 874 < |offsets| && chunks[k] == ChunkAt(text, offsets, k * 874, 1024)
  {
    var r := SplitAsConfigured(text, offsets, None, None);
    chunks := r.value;
    forall k | 0 <= k < |chunks|
      ensures k * 874 < |offsets| && chunks[k] == ChunkAt(text, offsets, k * 874, 1024)
    {
      assert Start(k, 874) < |offsets| && chunks[k] == ChunkAt(text, offsets, Start(k, 874), 1024);
    }
  }

  /** A task that gives a chunk size of 150 and no overlap is accepted and fails, and one that gives 100 is accepted
      and makes nothing of a text. */
  method DefaultOverlapSpoils(text: string) returns (failed: Result<seq<string>, SplitError>,
                                                     empty: Result<seq<string>, SplitError>)
    requires text != ""
    ensures Accepted(Some(150), None) && failed.Err?
    ensures Accepted(Some(100), None) && empty == Ok([])
  {
    failed := SplitAsConfigured(text, [Span(0, |text|)], Some(150), None);
    empty := SplitAsConfigured(text, [Span(0, |text|)], Some(100), None);
  }
}
