/** Greedy unit packing with a carried-over overlap (segmentUnits and calcOverlapBuffer in
    segmenter.go). */
module Packing {
  import opened Domain

  /** A paragraph or sentence with the pages it spans. */
  datatype TextUnit = TextUnit(text: string, startPage: int, endPage: int)

  /** Chunk k is units[start..end]. */
  datatype Span = Span(start: nat, end: nat)

  /** The segmenter's settings: token target, overlap, the token counter, and the length of
      a text in bytes. */
  datatype Settings = Settings(target: nat, overlap: nat, tokens: string -> nat, bytes: string -> nat)

  /** Token sum of units[a..b]. */
  function Sum(cfg: Settings, units: seq<TextUnit>, a: nat, b: nat): nat
    requires a <= b <= |units|
  {
    if a == b then 0 else Sum(cfg, units, a, b - 1) + cfg.tokens(units[b - 1].text)
  }

  lemma {:induction false} SumSplit(cfg: Settings, units: seq<TextUnit>, a: nat, m: nat, b: nat)
    requires a <= m <= b <= |units|
    ensures Sum(cfg, units, a, b) == Sum(cfg, units, a, m) + Sum(cfg, units, m, b)
    decreases b - m
  {
    if m < b {
      SumSplit(cfg, units, a, m, b - 1);
    }
  }

  lemma SumFirst(cfg: Settings, units: seq<TextUnit>, a: nat, b: nat)
    requires a < b <= |units|
    ensures Sum(cfg, units, a, b) == cfg.tokens(units[a].text) + Sum(cfg, units, a + 1, b)
  {
    SumSplit(cfg, units, a, a + 1, b);
    assert Sum(cfg, units, a, a + 1) == Sum(cfg, units, a, a) + cfg.tokens(units[a].text);
  }

  // ------------------------------------------------------------ declarative spec

  /** From units[a..from], from < n, the chunk closes after unit end - 1: it took at least
      one new unit, closed on the first one that reached the target, or ran out of units. */
  ghost predicate Closes(cfg: Settings, units: seq<TextUnit>, a: nat, from: nat, end: nat) {
    && a <= from < end <= |units|
    && (Sum(cfg, units, a, end) >= cfg.target || end == |units|)
    && forall m: nat | from < m < end :: Sum(cfg, units, a, m) < cfg.target
  }

  /** The buffer carried over from the chunk units[a..end] is its longest suffix whose token
      sum fits the overlap. */
  ghost predicate CarriesOver(cfg: Settings, units: seq<TextUnit>, a: nat, end: nat, next: nat) {
    && a <= next <= end <= |units|
    && Sum(cfg, units, next, end) <= cfg.overlap
    && (next == a || Sum(cfg, units, next - 1, end) > cfg.overlap)
  }

  /** The whole packing: starts at 0, ends at n, each chunk closes greedily, and each next
      chunk begins with the carried-over suffix. */
  ghost predicate IsPacking(cfg: Settings, units: seq<TextUnit>, spans: seq<Span>) {
    && (spans == [] <==> units == [])
    && (spans != [] ==> spans[0].start == 0 && spans[|spans| - 1].end == |units|)
    && (forall k | 0 <= k < |spans| :: ClosesAt(cfg, units, spans, k))
    && (forall k | 0 < k < |spans| :: CarriesInto(cfg, units, spans, k))
  }

  /** Where the units not seen before chunk k begin. */
  ghost function Fresh(spans: seq<Span>, k: nat): nat
    requires k < |spans|
  {
    if k == 0 then 0 else spans[k - 1].end
  }

  ghost predicate ClosesAt(cfg: Settings, units: seq<TextUnit>, spans: seq<Span>, k: int)
    requires 0 <= k < |spans|
  {
    Closes(cfg, units, spans[k].start, Fresh(spans, k), spans[k].end)
  }

  ghost predicate CarriesInto(cfg: Settings, units: seq<TextUnit>, spans: seq<Span>, k: int)
    requires 0 < k < |spans|
  {
    CarriesOver(cfg, units, spans[k - 1].start, spans[k - 1].end, spans[k].start)
  }

  // ------------------------------------------------------------ consequences

  lemma ClosesUnique(cfg: Settings, units: seq<TextUnit>, a: nat, from: nat, x: nat, y: nat)
    requires Closes(cfg, units, a, from, x) && Closes(cfg, units, a, from, y)
    ensures x == y
  {
  }

  /** Token counts cannot be negative, so shorter suffixes weigh no more. */
  lemma SuffixMonotone(cfg: Settings, units: seq<TextUnit>, a: nat, b: nat, end: nat)
    requires a <= b <= end <= |units|
    ensures Sum(cfg, units, b, end) <= Sum(cfg, units, a, end)
  {
  }

  lemma CarriesUnique(cfg: Settings, units: seq<TextUnit>, a: nat, end: nat, x: nat, y: nat)
    requires CarriesOver(cfg, units, a, end, x) && CarriesOver(cfg, units, a, end, y)
    ensures x == y
  {
    if x < y {
      SuffixMonotone(cfg, units, x, y - 1, end);
    } else if y < x {
      SuffixMonotone(cfg, units, y, x - 1, end);
    }
  }

  /** The units and settings determine the chunks: redelivery segments alike. */
  lemma {:induction false} PackingPrefixUnique(
    cfg: Settings, units: seq<TextUnit>, p: seq<Span>, q: seq<Span>, k: nat)
    requires IsPacking(cfg, units, p) && IsPacking(cfg, units, q) && k < |p| && k < |q|
    ensures p[k] == q[k]
    decreases k
  {
    assert ClosesAt(cfg, units, p, k) && ClosesAt(cfg, units, q, k);
    if k > 0 {
      PackingPrefixUnique(cfg, units, p, q, k - 1);
      assert CarriesInto(cfg, units, p, k) && CarriesInto(cfg, units, q, k);
      CarriesUnique(cfg, units, p[k - 1].start, p[k - 1].end, p[k].start, q[k].start);
    }
    ClosesUnique(cfg, units, p[k].start, Fresh(p, k), p[k].end, q[k].end);
  }

  lemma PackingUnique(cfg: Settings, units: seq<TextUnit>, p: seq<Span>, q: seq<Span>)
    requires IsPacking(cfg, units, p) && IsPacking(cfg, units, q)
    ensures p == q
  {
    forall k | 0 <= k < |p| && k < |q| ensures p[k] == q[k] {
      PackingPrefixUnique(cfg, units, p, q, k);
    }
    if |p| < |q| && p != [] {
      FreshBeforeEnd(cfg, units, q, |p|);
    } else if |q| < |p| && q != [] {
      FreshBeforeEnd(cfg, units, p, |q|);
    }
  }

  lemma FreshBeforeEnd(cfg: Settings, units: seq<TextUnit>, spans: seq<Span>, k: nat)
    requires IsPacking(cfg, units, spans) && k < |spans|
    ensures Fresh(spans, k) < |units|
  {
    assert ClosesAt(cfg, units, spans, k);
  }

  /** Spans advance: ends strictly, starts weakly, and a chunk never skips a unit. */
  lemma SpansAdvance(cfg: Settings, units: seq<TextUnit>, spans: seq<Span>, k: nat)
    requires IsPacking(cfg, units, spans) && 0 < k < |spans|
    ensures spans[k - 1].start <= spans[k].start <= spans[k - 1].end < spans[k].end
  {
    assert CarriesInto(cfg, units, spans, k) && ClosesAt(cfg, units, spans, k);
  }

  /** The units chunk k adds to what earlier chunks held, for the first k chunks. */
  ghost function FreshUnits(units: seq<TextUnit>, spans: seq<Span>, k: nat): seq<TextUnit>
    requires k <= |spans|
    requires forall j | 0 <= j < |spans| :: Fresh(spans, j) <= spans[j].end <= |units|
    decreases k
  {
    if k == 0 then []
    else FreshUnits(units, spans, k - 1) + units[Fresh(spans, k - 1)..spans[k - 1].end]
  }

  /** Reconstruction: dropping from each chunk the units it carried over and joining the
      rest gives back the unit list, every unit exactly once. */
  lemma Reconstruction(cfg: Settings, units: seq<TextUnit>, spans: seq<Span>)
    requires IsPacking(cfg, units, spans)
    ensures forall j | 0 <= j < |spans| :: spans[j].start <= Fresh(spans, j) <= spans[j].end <= |units|
    ensures FreshUnits(units, spans, |spans|) == units
  {
    forall j | 0 <= j < |spans| ensures spans[j].start <= Fresh(spans, j) <= spans[j].end <= |units| {
      assert ClosesAt(cfg, units, spans, j);
    }
    if spans != [] {
      FreshPrefix(units, spans, |spans|);
    }
  }

  lemma {:induction false} FreshPrefix(units: seq<TextUnit>, spans: seq<Span>, k: nat)
    requires 0 < k <= |spans|
    requires forall j | 0 <= j < |spans| :: Fresh(spans, j) <= spans[j].end <= |units|
    ensures FreshUnits(units, spans, k) == units[..spans[k - 1].end]
    decreases k
  {
    if k > 1 {
      FreshPrefix(units, spans, k - 1);
    } else {
      assert FreshUnits(units, spans, 0) == [];
    }
  }

  /** Token bounds: only the last chunk may stay under the target; without its last unit a
      chunk weighs less than the target or is nothing but carried-over overlap; and what it
      carries over weighs at most the overlap, one more unit would weigh more. */
  lemma TokenBounds(cfg: Settings, units: seq<TextUnit>, spans: seq<Span>, k: nat)
    requires IsPacking(cfg, units, spans) && k < |spans|
    ensures spans[k].start < spans[k].end <= |units|
    ensures k > 0 ==> spans[k - 1].start <= spans[k].start <= spans[k - 1].end <= |units|
    ensures k < |spans| - 1 ==> Sum(cfg, units, spans[k].start, spans[k].end) >= cfg.target
    ensures Sum(cfg, units, spans[k].start, spans[k].end - 1) <= Max(cfg.target - 1, cfg.overlap)
    ensures k > 0 ==> Sum(cfg, units, spans[k].start, spans[k - 1].end) <= cfg.overlap
    ensures k > 0 && spans[k].start > spans[k - 1].start ==>
              Sum(cfg, units, spans[k].start - 1, spans[k - 1].end) > cfg.overlap
  {
    assert ClosesAt(cfg, units, spans, k);
    if k > 0 {
      assert CarriesInto(cfg, units, spans, k);
    }
    if k < |spans| - 1 {
      assert ClosesAt(cfg, units, spans, k + 1);
    }
    var e := spans[k].end;
    if e - 1 > Fresh(spans, k) {
      assert Sum(cfg, units, spans[k].start, e - 1) < cfg.target;
    }
  }

  /** At most one chunk per unit. */
  lemma {:induction false} AtMostOneChunkPerUnit(cfg: Settings, units: seq<TextUnit>, spans: seq<Span>, k: nat)
    requires IsPacking(cfg, units, spans) && k < |spans|
    ensures k < spans[k].end && |spans| <= |units|
    decreases |spans| - k
  {
    EndsGrow(cfg, units, spans, k);
    EndsGrow(cfg, units, spans, |spans| - 1);
  }

  lemma {:induction false} EndsGrow(cfg: Settings, units: seq<TextUnit>, spans: seq<Span>, k: nat)
    requires IsPacking(cfg, units, spans) && k < |spans|
    ensures k < spans[k].end
    decreases k
  {
    assert ClosesAt(cfg, units, spans, k);
    if k > 0 {
      EndsGrow(cfg, units, spans, k - 1);
    }
  }

  // ---------------------------------------------------------------------- pages

  /** Units in reading order: no unit ends before it starts or after its successor starts. */
  ghost predicate PagesInOrder(units: seq<TextUnit>) {
    && (forall i | 0 <= i < |units| :: units[i].startPage <= units[i].endPage)
    && (forall i, j | 0 <= i < j < |units| :: units[i].endPage <= units[j].startPage)
  }

  /** Chunks of units in reading order span pages in order, too. */
  lemma ChunkPagesInOrder(cfg: Settings, units: seq<TextUnit>, spans: seq<Span>, k: nat)
    requires IsPacking(cfg, units, spans) && PagesInOrder(units) && k < |spans|
    ensures spans[k].start < spans[k].end <= |units|
    ensures k > 0 ==> spans[k - 1].start < spans[k - 1].end <= |units|
    ensures units[spans[k].start].startPage <= units[spans[k].end - 1].endPage
    ensures k > 0 ==> units[spans[k - 1].start].startPage <= units[spans[k].start].startPage
    ensures k > 0 ==> units[spans[k - 1].end - 1].endPage <= units[spans[k].end - 1].endPage
  {
    assert ClosesAt(cfg, units, spans, k);
    if k > 0 {
      assert ClosesAt(cfg, units, spans, k - 1);
      SpansAdvance(cfg, units, spans, k);
    }
  }

  // --------------------------------------------------------------------- the code

  function Texts(units: seq<TextUnit>): (r: seq<string>)
    ensures |r| == |units| && forall i | 0 <= i < |units| :: r[i] == units[i].text
  {
    seq(|units|, i requires 0 <= i < |units| => units[i].text)
  }

  /** Everything the packer decides about chunk k; ids and timestamps are the builder's. The
      text is the unit texts in order with a blank line between neighbours, and nothing else. */
  ghost predicate IsUnitChunk(c: Chunk, cfg: Settings, units: seq<TextUnit>, doc: UUID, span: Span, k: nat, offset: nat)
    requires span.start < span.end <= |units|
  {
    && c.documentId == doc && c.index == k && c.vectorId == NIL && c.hash == ""
    && LaidOut(c.content, Texts(units[span.start..span.end]), "\n\n")
    && c.metadata == PlainMetadata(units[span.start].startPage, units[span.end - 1].endPage,
                                   offset, offset + cfg.bytes(c.content), cfg.tokens(c.content))
  }

  /** Chunks follow the spans, numbered from 0, with byte offsets laid end to end. */
  ghost predicate AreUnitChunks(cs: seq<Chunk>, cfg: Settings, units: seq<TextUnit>, doc: UUID, spans: seq<Span>) {
    |cs| == |spans| && forall k | 0 <= k < |cs| :: UnitChunkAt(cs, cfg, units, doc, spans, k)
  }

  ghost predicate UnitChunkAt(
    cs: seq<Chunk>, cfg: Settings, units: seq<TextUnit>, doc: UUID, spans: seq<Span>, k: nat)
    requires k < |cs| == |spans|
  {
    && spans[k].start < spans[k].end <= |units|
    && IsUnitChunk(cs[k], cfg, units, doc, spans[k], k, EndOffset(cs[..k]))
  }

  function EndOffset(cs: seq<Chunk>): nat {
    if cs == [] then 0 else cs[|cs| - 1].metadata.endOffset
  }

  /** The chunks a unit list is packed into. */
  ghost predicate PackedInto(cs: seq<Chunk>, cfg: Settings, units: seq<TextUnit>, doc: UUID) {
    exists spans :: IsPacking(cfg, units, spans) && AreUnitChunks(cs, cfg, units, doc, spans)
  }

  /** What chunk k says of itself: it begins where its predecessor ended, its length is that of
      its text in bytes, its tokens are those of its text, and its pages are those from its
      first unit to its last. */
  lemma MetadataExactly(cs: seq<Chunk>, cfg: Settings, units: seq<TextUnit>, doc: UUID, spans: seq<Span>, k: nat)
    requires AreUnitChunks(cs, cfg, units, doc, spans) && k < |cs|
    ensures spans[k].start < spans[k].end <= |units|
    ensures cs[k].metadata.startOffset == if k == 0 then 0 else cs[k - 1].metadata.endOffset
    ensures cs[k].metadata.endOffset - cs[k].metadata.startOffset == cfg.bytes(cs[k].content)
    ensures cs[k].metadata.tokenCount == cfg.tokens(cs[k].content)
    ensures cs[k].metadata.startPage == units[spans[k].start].startPage
    ensures cs[k].metadata.endPage == units[spans[k].end - 1].endPage
  {
    assert UnitChunkAt(cs, cfg, units, doc, spans, k);
  }

  // ----------------------------------------------------------------- the text again

  /** How much of chunk k is carried over: those units, each with the separator after it. */
  ghost function CarriedLength(units: seq<TextUnit>, spans: seq<Span>, k: nat): nat
    requires k < |spans| && spans[k].start <= Fresh(spans, k) <= |units|
  {
    Offset(Texts(units[spans[k].start..Fresh(spans, k)]), 2, Fresh(spans, k) - spans[k].start)
  }

  ghost function Cut(c: Chunk, from: nat): string {
    if from <= |c.content| then c.content[from..] else ""
  }

  /** The text of chunk k past what it carried over is the text of its new units. */
  lemma CutIsFresh(cs: seq<Chunk>, cfg: Settings, units: seq<TextUnit>, doc: UUID, spans: seq<Span>, k: nat)
    requires IsPacking(cfg, units, spans) && AreUnitChunks(cs, cfg, units, doc, spans) && k < |cs|
    ensures spans[k].start <= Fresh(spans, k) < spans[k].end <= |units|
    ensures CarriedLength(units, spans, k) <= |cs[k].content|
    ensures Cut(cs[k], CarriedLength(units, spans, k)) == Join(Texts(units[Fresh(spans, k)..spans[k].end]), "\n\n")
  {
    assert ClosesAt(cfg, units, spans, k) && UnitChunkAt(cs, cfg, units, doc, spans, k);
    var a, m, e := spans[k].start, Fresh(spans, k), spans[k].end;
    var carried, fresher := Texts(units[a..m]), Texts(units[m..e]);
    assert Texts(units[a..e]) == carried + fresher;
    LaidOutIsJoin(cs[k].content, carried + fresher, "\n\n");
    if carried == [] {
      assert carried + fresher == fresher;
    } else {
      JoinConcat(carried, fresher, "\n\n");
      JoinLaidOut(carried, "\n\n");
    }
  }

  ghost predicate FreshInside(units: seq<TextUnit>, spans: seq<Span>) {
    forall k | 0 <= k < |spans| :: spans[k].start <= Fresh(spans, k) < spans[k].end <= |units|
  }

  /** The chunk texts, each without what it carried over. */
  ghost function Added(cs: seq<Chunk>, units: seq<TextUnit>, spans: seq<Span>): (added: seq<string>)
    requires |cs| == |spans| && FreshInside(units, spans)
    ensures |added| == |cs|
    ensures forall k | 0 <= k < |cs| :: added[k] == Cut(cs[k], CarriedLength(units, spans, k))
  {
    seq(|cs|, k requires 0 <= k < |cs| => Cut(cs[k], CarriedLength(units, spans, k)))
  }

  /** No text is lost, repeated or moved: the chunk texts, each without what it carried over,
      put one after another with blank lines between them, are all unit texts put one after
      another with blank lines between them. */
  lemma {:induction false} ContentsRebuild(
    cs: seq<Chunk>, cfg: Settings, units: seq<TextUnit>, doc: UUID, spans: seq<Span>)
    requires IsPacking(cfg, units, spans) && AreUnitChunks(cs, cfg, units, doc, spans)
    ensures FreshInside(units, spans)
    ensures forall k | 0 <= k < |cs| :: CarriedLength(units, spans, k) <= |cs[k].content|
    ensures LaidOut(Join(Added(cs, units, spans), "\n\n"), Texts(units), "\n\n")
  {
    forall k | 0 <= k < |cs|
      ensures spans[k].start <= Fresh(spans, k) < spans[k].end <= |units|
      ensures CarriedLength(units, spans, k) <= |cs[k].content|
      ensures Cut(cs[k], CarriedLength(units, spans, k)) == Join(Texts(units[Fresh(spans, k)..spans[k].end]), "\n\n")
    {
      CutIsFresh(cs, cfg, units, doc, spans, k);
    }
    AddedRebuild(Added(cs, units, spans), cfg, units, spans);
  }

  lemma {:induction false} AddedRebuild(added: seq<string>, cfg: Settings, units: seq<TextUnit>, spans: seq<Span>)
    requires IsPacking(cfg, units, spans) && AreFreshTexts(added, units, spans)
    ensures LaidOut(Join(added, "\n\n"), Texts(units), "\n\n")
  {
    Reconstruction(cfg, units, spans);
    if spans != [] {
      AddedPrefix(added, units, spans, |spans|);
      assert added[..|spans|] == added;
    }
    JoinLaidOut(Texts(units), "\n\n");
  }

  ghost predicate AreFreshTexts(added: seq<string>, units: seq<TextUnit>, spans: seq<Span>) {
    && |added| == |spans| && FreshInside(units, spans)
    && forall j | 0 <= j < |spans| :: added[j] == Join(Texts(units[Fresh(spans, j)..spans[j].end]), "\n\n")
  }

  lemma {:induction false} AddedPrefix(added: seq<string>, units: seq<TextUnit>, spans: seq<Span>, k: nat)
    requires 0 < k <= |spans| && AreFreshTexts(added, units, spans)
    ensures Join(added[..k], "\n\n") == FreshText(units, spans, k)
    decreases k
  {
    FreshTextNext(added, units, spans, k);
    if k == 1 {
      JoinFirst(added, "\n\n");
    } else {
      AddedPrefix(added, units, spans, k - 1);
      JoinNext(added, "\n\n", k - 1);
    }
  }

  ghost function FreshText(units: seq<TextUnit>, spans: seq<Span>, k: nat): string
    requires k <= |spans| && FreshInside(units, spans)
  {
    Join(Texts(FreshUnits(units, spans, k)), "\n\n")
  }

  lemma {:induction false} FreshTextNext(added: seq<string>, units: seq<TextUnit>, spans: seq<Span>, k: nat)
    requires 0 < k <= |spans| && AreFreshTexts(added, units, spans)
    ensures k == 1 ==> FreshText(units, spans, k) == added[0]
    ensures k > 1 ==> FreshText(units, spans, k) == FreshText(units, spans, k - 1) + "\n\n" + added[k - 1]
  {
    var last := units[Fresh(spans, k - 1)..spans[k - 1].end];
    var before := FreshUnits(units, spans, k - 1);
    assert FreshUnits(units, spans, k) == before + last;
    if k == 1 {
      assert before + last == last;
    } else {
      FreshNotEmpty(units, spans, k - 1);
      JoinedTexts(before, last);
    }
  }

  lemma {:induction false} FreshNotEmpty(units: seq<TextUnit>, spans: seq<Span>, k: nat)
    requires 0 < k <= |spans| && FreshInside(units, spans)
    ensures FreshUnits(units, spans, k) != []
  {
  }

  lemma {:induction false} JoinedTexts(a: seq<TextUnit>, b: seq<TextUnit>)
    requires a != [] && b != []
    ensures Join(Texts(a + b), "\n\n") == Join(Texts(a), "\n\n") + "\n\n" + Join(Texts(b), "\n\n")
  {
    assert Texts(a + b) == Texts(a) + Texts(b);
    JoinConcat(Texts(a), Texts(b), "\n\n");
  }

  /** kept is the longest suffix of the buffer whose token sum fits the overlap. */
  ghost predicate IsOverlap(cfg: Settings, buffer: seq<TextUnit>, kept: seq<TextUnit>) {
    && |kept| <= |buffer| && kept == buffer[|buffer| - |kept|..]
    && CarriesOver(cfg, buffer, 0, |buffer|, |buffer| - |kept|)
  }

  /** calcOverlapBuffer: walks back from the end of the buffer while the sum fits. */
  method CalcOverlapBuffer(cfg: Settings, buffer: seq<TextUnit>) returns (newBuffer: seq<TextUnit>, sum: nat)
    ensures IsOverlap(cfg, buffer, newBuffer)
    ensures sum == Sum(cfg, buffer, |buffer| - |newBuffer|, |buffer|)
  {
    newBuffer, sum := [], 0;
    var i := |buffer|;
    while i > 0
      invariant 0 <= i <= |buffer| && newBuffer == buffer[i..]
      invariant sum == Sum(cfg, buffer, i, |buffer|) <= cfg.overlap
    {
      var toks := cfg.tokens(buffer[i - 1].text);
      SumFirst(cfg, buffer, i - 1, |buffer|);
      if sum + toks > cfg.overlap {
        return;
      }
      newBuffer := [buffer[i - 1]] + newBuffer;
      sum, i := sum + toks, i - 1;
    }
  }

  lemma {:induction false} SumShift(cfg: Settings, units: seq<TextUnit>, a: nat, end: nat, x: nat, y: nat)
    requires a <= end <= |units| && x <= y <= end - a
    ensures Sum(cfg, units[a..end], x, y) == Sum(cfg, units, a + x, a + y)
    decreases y
  {
    if x < y {
      SumShift(cfg, units, a, end, x, y - 1);
    }
  }

  lemma CarriesShift(cfg: Settings, units: seq<TextUnit>, a: nat, end: nat, m: nat)
    requires a <= end <= |units| && CarriesOver(cfg, units[a..end], 0, end - a, m)
    ensures CarriesOver(cfg, units, a, end, a + m)
    ensures Sum(cfg, units[a..end], m, end - a) == Sum(cfg, units, a + m, end)
  {
    SumShift(cfg, units, a, end, m, end - a);
    if m > 0 {
      SumShift(cfg, units, a, end, m - 1, end - a);
    }
  }

  /** What is carried over, seen from the whole unit list. */
  lemma OverlapCarries(
    cfg: Settings, units: seq<TextUnit>, a: nat, end: nat, buffer: seq<TextUnit>, kept: seq<TextUnit>)
    returns (next: nat)
    requires a <= end <= |units| && buffer == units[a..end] && IsOverlap(cfg, buffer, kept)
    ensures CarriesOver(cfg, units, a, end, next) && kept == units[next..end]
    ensures Sum(cfg, buffer, |buffer| - |kept|, |buffer|) == Sum(cfg, units, next, end)
  {
    var m := |buffer| - |kept|;
    CarriesShift(cfg, units, a, end, m);
    next := a + m;
  }

  /** segmentUnits: fills a buffer unit by unit, closes a chunk when the target is reached
      or the units end, and starts the next buffer with the overlap. */
  method SegmentUnits(cfg: Settings, doc: UUID, units: seq<TextUnit>, newId: nat -> UUID) returns (chunks: seq<Chunk>)
    ensures PackedInto(chunks, cfg, units, doc) && IdsFrom(chunks, newId)
  {
    chunks := [];
    ghost var spans := [];
    if units == [] {
      assert IsPacking(cfg, units, spans) && AreUnitChunks(chunks, cfg, units, doc, spans);
      return;
    }
    var buffer: seq<TextUnit>, bufferTokens, offset := [], 0, 0;
    ghost var a: nat := 0;
    for i := 0 to |units|
      invariant PartialPacking(cfg, units, spans, a, i)
      invariant buffer == units[a..i] && bufferTokens == Sum(cfg, units, a, i)
      invariant AreUnitChunks(chunks, cfg, units, doc, spans) && offset == EndOffset(chunks)
      invariant IdsFrom(chunks, newId)
      invariant i == |units| ==> spans != [] && spans[|spans| - 1].end == |units|
    {
      buffer := buffer + [units[i]];
      bufferTokens := bufferTokens + cfg.tokens(units[i].text);
      if bufferTokens < cfg.target && i < |units| - 1 {
        KeepFilling(cfg, units, spans, a, i);
        continue;
      }
      chunks, buffer, bufferTokens, offset, spans, a :=
        EmitChunk(cfg, doc, units, chunks, buffer, offset, newId, spans, a, i);
    }
    PackingDone(cfg, units, spans, a);
  }

  lemma PackingDone(cfg: Settings, units: seq<TextUnit>, spans: seq<Span>, a: nat)
    requires PartialPacking(cfg, units, spans, a, |units|) && units != []
    requires spans != [] && spans[|spans| - 1].end == |units|
    ensures IsPacking(cfg, units, spans)
  {
  }

  lemma KeepFilling(cfg: Settings, units: seq<TextUnit>, spans: seq<Span>, a: nat, i: nat)
    requires i < |units| && PartialPacking(cfg, units, spans, a, i)
    requires Sum(cfg, units, a, i + 1) < cfg.target
    ensures PartialPacking(cfg, units, spans, a, i + 1)
    ensures units[a..i] + [units[i]] == units[a..i + 1]
  {
  }

  /** The part of an iteration that closes a chunk and carries the overlap over. */
  method EmitChunk(cfg: Settings, doc: UUID, units: seq<TextUnit>, chunks0: seq<Chunk>, full: seq<TextUnit>,
                   offset0: nat, newId: nat -> UUID, ghost spans0: seq<Span>, ghost a0: nat, ghost i: nat)
    returns (chunks: seq<Chunk>, buffer: seq<TextUnit>, bufferTokens: nat, offset: nat,
             ghost spans: seq<Span>, ghost a: nat)
    requires i < |units| && PartialPacking(cfg, units, spans0, a0, i)
    requires full == units[a0..i + 1]
    requires Sum(cfg, units, a0, i + 1) >= cfg.target || i + 1 == |units|
    requires AreUnitChunks(chunks0, cfg, units, doc, spans0) && offset0 == EndOffset(chunks0)
    requires IdsFrom(chunks0, newId)
    ensures PartialPacking(cfg, units, spans, a, i + 1)
    ensures spans == spans0 + [Span(a0, i + 1)]
    ensures buffer == units[a..i + 1] && bufferTokens == Sum(cfg, units, a, i + 1)
    ensures AreUnitChunks(chunks, cfg, units, doc, spans) && offset == EndOffset(chunks)
    ensures IdsFrom(chunks, newId)
  {
    spans := spans0 + [Span(a0, i + 1)];
    chunks, offset := AddChunk(cfg, doc, units, chunks0, full, offset0, newId, spans0, Span(a0, i + 1));
    buffer, bufferTokens, a := CarryOver(cfg, units, full, spans0, a0, i);
  }

  method CarryOver(cfg: Settings, ghost units: seq<TextUnit>, full: seq<TextUnit>, ghost spans: seq<Span>,
                   ghost a0: nat, ghost i: nat)
    returns (buffer: seq<TextUnit>, bufferTokens: nat, ghost a: nat)
    requires i < |units| && PartialPacking(cfg, units, spans, a0, i) && full == units[a0..i + 1]
    requires Sum(cfg, units, a0, i + 1) >= cfg.target || i + 1 == |units|
    ensures PartialPacking(cfg, units, spans + [Span(a0, i + 1)], a, i + 1)
    ensures buffer == units[a..i + 1] && bufferTokens == Sum(cfg, units, a, i + 1)
  {
    buffer, bufferTokens := CalcOverlapBuffer(cfg, full);
    a := OverlapCarries(cfg, units, a0, i + 1, full, buffer);
    CloseChunk(cfg, units, spans, a0, i, a);
  }

  method AddChunk(cfg: Settings, doc: UUID, units: seq<TextUnit>, chunks0: seq<Chunk>, full: seq<TextUnit>,
                  offset0: nat, newId: nat -> UUID, ghost spans0: seq<Span>, ghost span: Span)
    returns (chunks: seq<Chunk>, offset: nat)
    requires span.start < span.end <= |units| && full == units[span.start..span.end]
    requires AreUnitChunks(chunks0, cfg, units, doc, spans0) && offset0 == EndOffset(chunks0)
    requires IdsFrom(chunks0, newId)
    ensures AreUnitChunks(chunks, cfg, units, doc, spans0 + [span]) && offset == EndOffset(chunks)
    ensures IdsFrom(chunks, newId)
  {
    var chunk := CloseBuffer(cfg, doc, full, |chunks0|, offset0, newId(|chunks0|));
    CloseBufferIs(chunk, cfg, units, doc, span.start, span.end, |chunks0|, offset0);
    AppendChunk(chunks0, cfg, units, doc, spans0, span, chunk);
    IdsNext(chunks0, chunk, newId);
    chunks, offset := chunks0 + [chunk], chunk.metadata.endOffset;
  }

  lemma CloseBufferIs(c: Chunk, cfg: Settings, units: seq<TextUnit>, doc: UUID, a: nat, end: nat, k: nat, offset: nat)
    requires a < end <= |units|
    requires IsUnitChunk(c, cfg, units[a..end], doc, Span(0, end - a), k, offset)
    ensures IsUnitChunk(c, cfg, units, doc, Span(a, end), k, offset)
  {
    assert units[a..end][0..end - a] == units[a..end];
  }

  lemma AppendChunk(
    cs: seq<Chunk>, cfg: Settings, units: seq<TextUnit>, doc: UUID, spans: seq<Span>, span: Span, c: Chunk)
    requires AreUnitChunks(cs, cfg, units, doc, spans)
    requires span.start < span.end <= |units| && IsUnitChunk(c, cfg, units, doc, span, |cs|, EndOffset(cs))
    ensures AreUnitChunks(cs + [c], cfg, units, doc, spans + [span])
  {
    forall k | 0 <= k < |cs| + 1 ensures UnitChunkAt(cs + [c], cfg, units, doc, spans + [span], k) {
      assert (cs + [c])[..k] == cs[..k];
      if k < |cs| {
        assert UnitChunkAt(cs, cfg, units, doc, spans, k);
      } else {
        assert cs[..k] == cs;
      }
    }
  }

  /** Turns the full buffer into the next chunk. */
  method CloseBuffer(cfg: Settings, doc: UUID, buffer: seq<TextUnit>, index: nat, offset: nat, id: UUID)
    returns (c: Chunk)
    requires buffer != []
    ensures c.id == id && IsUnitChunk(c, cfg, buffer, doc, Span(0, |buffer|), index, offset)
  {
    var content := BuildContent(buffer);
    assert buffer[0..|buffer|] == buffer;
    c := Chunk(id, doc, NIL, index, content, "",
               PlainMetadata(buffer[0].startPage, buffer[|buffer| - 1].endPage,
                             offset, offset + cfg.bytes(content), cfg.tokens(content)));
  }

  /** The string builder loop. */
  method BuildContent(buffer: seq<TextUnit>) returns (content: string)
    ensures LaidOut(content, Texts(buffer), "\n\n")
  {
    content := "";
    for j := 0 to |buffer|
      invariant content == Join(Texts(buffer[..j]), "\n\n")
    {
      if j > 0 {
        content := content + "\n\n";
      }
      content := content + buffer[j].text;
      assert Texts(buffer[..j + 1])[..j] == Texts(buffer[..j]);
    }
    assert buffer[..|buffer|] == buffer;
    JoinLaidOut(Texts(buffer), "\n\n");
  }

  /** Invariant of the packing loop at unit i, with the open buffer units[a..i]. */
  ghost predicate PartialPacking(cfg: Settings, units: seq<TextUnit>, spans: seq<Span>, a: nat, i: nat) {
    var from := if spans == [] then 0 else spans[|spans| - 1].end;
    && a <= from <= i <= |units|
    && (spans == [] ==> a == 0)
    && (spans != [] ==> spans[0].start == 0 && CarriesOver(cfg, units, spans[|spans| - 1].start, from, a))
    && (forall k | 0 <= k < |spans| :: ClosesAt(cfg, units, spans, k))
    && (forall k | 0 < k < |spans| :: CarriesInto(cfg, units, spans, k))
    && (forall m: nat | from < m <= i :: Sum(cfg, units, a, m) < cfg.target)
  }

  lemma CloseChunk(cfg: Settings, units: seq<TextUnit>, spans: seq<Span>, a: nat, i: nat, next: nat)
    requires i < |units| && PartialPacking(cfg, units, spans, a, i)
    requires Sum(cfg, units, a, i + 1) >= cfg.target || i + 1 == |units|
    requires CarriesOver(cfg, units, a, i + 1, next)
    ensures PartialPacking(cfg, units, spans + [Span(a, i + 1)], next, i + 1)
  {
    var longer := spans + [Span(a, i + 1)];
    forall k | 0 <= k < |longer| ensures ClosesAt(cfg, units, longer, k) {
      if k < |spans| {
        assert ClosesAt(cfg, units, spans, k);
        assert Fresh(longer, k) == Fresh(spans, k);
      }
    }
    forall k | 0 < k < |longer| ensures CarriesInto(cfg, units, longer, k) {
      if k < |spans| {
        assert CarriesInto(cfg, units, spans, k);
      }
    }
  }
}
