/** What holds of every segmentation, whatever the strategy: numbering, determinism, page
    order from the text stream to the chunks, and reconstruction. */
module SegmentLaws {
  import opened Domain
  import opened Pages
  import opened Segmenter
  import Packing
  import Windows

  /** Fresh out of the segmenter: numbered from 0 within one document, no hash, no vector. */
  ghost predicate Numbered(cs: seq<Chunk>, doc: UUID) {
    forall k | 0 <= k < |cs| :: cs[k].documentId == doc && cs[k].index == k && cs[k].hash == "" && cs[k].vectorId == NIL
  }

  lemma UnitChunksNumbered(cs: seq<Chunk>, cfg: Packing.Settings, us: seq<Packing.TextUnit>, doc: UUID)
    requires Packing.PackedInto(cs, cfg, us, doc)
    ensures Numbered(cs, doc)
  {
    var spans :| Packing.IsPacking(cfg, us, spans) && Packing.AreUnitChunks(cs, cfg, us, doc, spans);
    forall k | 0 <= k < |cs|
      ensures cs[k].documentId == doc && cs[k].index == k && cs[k].hash == "" && cs[k].vectorId == NIL
    {
      assert Packing.UnitChunkAt(cs, cfg, us, doc, spans, k);
    }
  }

  /** No two chunks of a document share (document, index). */
  lemma SegmentationNumbered(cfg: Config, doc: UUID, lines: seq<ExtractedLine>, cs: seq<Chunk>)
    requires IsSegmentation(cfg, doc, lines, cs)
    ensures Numbered(cs, doc)
  {
    if lines != [] {
      if cfg.strategy == Sentence {
        UnitChunksNumbered(cs, UnitSettings(cfg), SentenceUnits(lines, cfg), doc);
      } else if ParagraphSegmentation(cfg, doc, lines, cs) {
        var us :| ParagraphUnitsOf(us, lines, cfg.ops) && Packing.PackedInto(cs, UnitSettings(cfg), us, doc);
        UnitChunksNumbered(cs, UnitSettings(cfg), us, doc);
      }
    }
  }

  // ------------------------------------------------------------------ determinism

  /** Equal up to the generated chunk ids. */
  ghost predicate Alike(p: seq<Chunk>, q: seq<Chunk>) {
    |p| == |q| && forall k | 0 <= k < |p| :: SameButId(p[k], q[k])
  }

  ghost predicate SameButId(c: Chunk, d: Chunk) {
    c == d.(id := c.id)
  }

  lemma {:induction false} UnitChunksAlike(
    p: seq<Chunk>, q: seq<Chunk>, cfg: Packing.Settings, us: seq<Packing.TextUnit>, doc: UUID,
    spans: seq<Packing.Span>, k: nat)
    requires Packing.AreUnitChunks(p, cfg, us, doc, spans) && Packing.AreUnitChunks(q, cfg, us, doc, spans)
    requires k < |p|
    ensures SameButId(p[k], q[k])
    decreases k
  {
    assert Packing.UnitChunkAt(p, cfg, us, doc, spans, k) && Packing.UnitChunkAt(q, cfg, us, doc, spans, k);
    LaidOutUnique(p[k].content, q[k].content, Packing.Texts(us[spans[k].start..spans[k].end]), "\n\n");
    if k > 0 {
      UnitChunksAlike(p, q, cfg, us, doc, spans, k - 1);
    }
  }

  lemma PackedAlike(p: seq<Chunk>, q: seq<Chunk>, cfg: Packing.Settings, us: seq<Packing.TextUnit>, doc: UUID)
    requires Packing.PackedInto(p, cfg, us, doc) && Packing.PackedInto(q, cfg, us, doc)
    ensures Alike(p, q)
  {
    var s :| Packing.IsPacking(cfg, us, s) && Packing.AreUnitChunks(p, cfg, us, doc, s);
    var t :| Packing.IsPacking(cfg, us, t) && Packing.AreUnitChunks(q, cfg, us, doc, t);
    Packing.PackingUnique(cfg, us, s, t);
    forall k | 0 <= k < |p| ensures SameButId(p[k], q[k]) {
      UnitChunksAlike(p, q, cfg, us, doc, s, k);
    }
  }

  lemma ParagraphUnitsUnique(
    us: seq<Packing.TextUnit>, vs: seq<Packing.TextUnit>, lines: seq<ExtractedLine>, ops: TextOps)
    requires ParagraphUnitsOf(us, lines, ops) && ParagraphUnitsOf(vs, lines, ops)
    ensures us == vs
  {
    var ps: seq<Packing.Span> :| AreParagraphs(lines, ops, ps) && AreParagraphUnits(us, lines, ops, ps);
    var qs: seq<Packing.Span> :| AreParagraphs(lines, ops, qs) && AreParagraphUnits(vs, lines, ops, qs);
    ParagraphsUnique(lines, ops, ps, qs, |ps|);
    ParagraphsUnique(lines, ops, qs, ps, |qs|);
    assert ps == qs;
    forall k | 0 <= k < |us| ensures us[k] == vs[k] {
      assert ParagraphUnitAt(us, lines, ops, ps, k) && ParagraphUnitAt(vs, lines, ops, qs, k);
      LaidOutUnique(us[k].text, vs[k].text, Trimmed(lines[ps[k].start..ps[k].end], ops), " ");
    }
  }

  lemma ParagraphsAlike(cfg: Config, doc: UUID, lines: seq<ExtractedLine>, p: seq<Chunk>, q: seq<Chunk>)
    requires ParagraphSegmentation(cfg, doc, lines, p) && ParagraphSegmentation(cfg, doc, lines, q)
    ensures Alike(p, q)
  {
    var us :| ParagraphUnitsOf(us, lines, cfg.ops) && Packing.PackedInto(p, UnitSettings(cfg), us, doc);
    var vs :| ParagraphUnitsOf(vs, lines, cfg.ops) && Packing.PackedInto(q, UnitSettings(cfg), vs, doc);
    ParagraphUnitsUnique(us, vs, lines, cfg.ops);
    PackedAlike(p, q, UnitSettings(cfg), us, doc);
  }

  lemma TokensAlike(
    cfg: Config, e: Encoder, doc: UUID, lines: seq<ExtractedLine>, ids: seq<nat>, p: seq<Chunk>, q: seq<Chunk>)
    requires lines != []
    requires TokenSegmentation(cfg, e, doc, lines, ids, p) && TokenSegmentation(cfg, e, doc, lines, ids, q)
    ensures Alike(p, q)
  {
    var step := Windows.CalcStep(cfg.target, cfg.overlap);
    var v :| Windows.AreWindows(v, |ids|, cfg.target, step) && |p| == |v|
             && forall k | 0 <= k < |v| :: IsTokenChunk(p[k], cfg, e, lines, doc, ids, v[k], k);
    var w :| Windows.AreWindows(w, |ids|, cfg.target, step) && |q| == |w|
             && forall k | 0 <= k < |w| :: IsTokenChunk(q[k], cfg, e, lines, doc, ids, w[k], k);
    Windows.WindowsUnique(v, w, |ids|, cfg.target, step);
    forall k | 0 <= k < |p| ensures SameButId(p[k], q[k]) {
      assert IsTokenChunk(p[k], cfg, e, lines, doc, ids, v[k], k);
      assert IsTokenChunk(q[k], cfg, e, lines, doc, ids, w[k], k);
    }
  }

  lemma CharactersAlike(
    cfg: Config, doc: UUID, lines: seq<ExtractedLine>, full: string, p: seq<Chunk>, q: seq<Chunk>)
    requires lines != []
    requires CharacterSegmentation(cfg, doc, lines, full, p) && CharacterSegmentation(cfg, doc, lines, full, q)
    ensures Alike(p, q)
  {
    var width, step := cfg.target * 4, Windows.CalcStep(cfg.target * 4, cfg.overlap * 4);
    var v :| Windows.AreWindows(v, |full|, width, step) && |p| == |v|
             && forall k | 0 <= k < |v| :: IsCharacterChunk(p[k], cfg, lines, doc, full, v[k], k);
    var w :| Windows.AreWindows(w, |full|, width, step) && |q| == |w|
             && forall k | 0 <= k < |w| :: IsCharacterChunk(q[k], cfg, lines, doc, full, w[k], k);
    Windows.WindowsUnique(v, w, |full|, width, step);
    forall k | 0 <= k < |p| ensures SameButId(p[k], q[k]) {
      assert IsCharacterChunk(p[k], cfg, lines, doc, full, v[k], k);
      assert IsCharacterChunk(q[k], cfg, lines, doc, full, w[k], k);
    }
  }

  /** Segmenting the same lines twice gives the same chunks up to their ids, so a redelivered
      event offers the same (document, index) keys and the same contents again. */
  lemma SegmentationDeterministic(cfg: Config, doc: UUID, lines: seq<ExtractedLine>, p: seq<Chunk>, q: seq<Chunk>)
    requires IsSegmentation(cfg, doc, lines, p) && IsSegmentation(cfg, doc, lines, q)
    ensures Alike(p, q)
  {
    if lines != [] {
      match cfg.strategy
      case Paragraph => ParagraphsAlike(cfg, doc, lines, p, q);
      case Sentence =>
        PackedAlike(p, q, UnitSettings(cfg), SentenceUnits(lines, cfg), doc);
      case CharacterBased =>
        var full := FullText(lines, cfg.ops, "\n");
        if cfg.ops.trim(full) != "" {
          CharactersAlike(cfg, doc, lines, full, p, q);
        }
      case Exact =>
        var full := FullText(lines, cfg.ops, " ");
        if cfg.ops.trim(full) != "" {
          match TokenIds(cfg, full)
          case None => ParagraphsAlike(cfg, doc, lines, p, q);
          case Some(ids) => TokensAlike(cfg, cfg.encoder.value, doc, lines, ids, p, q);
        }
    }
  }

  // --------------------------------------------------- what each strategy makes

  /** Character mode: the chunks are the text at their offsets, from its beginning to its end;
      all but the last are four times the target long, and neighbours share four times the
      overlap, or half a chunk when the overlap is no smaller than the target. */
  lemma CharacterChunksExactly(cfg: Config, doc: UUID, lines: seq<ExtractedLine>, cs: seq<Chunk>)
    returns (full: string)
    requires IsSegmentation(cfg, doc, lines, cs) && cfg.strategy == CharacterBased && lines != []
    requires cfg.target > 0 && cfg.overlap > 0
    ensures IsFullText(full, lines, cfg.ops, "\n")
    ensures cs == [] <==> full == "" || cfg.ops.trim(full) == ""
    ensures cs != [] ==> cs[0].metadata.startOffset == 0 && cs[|cs| - 1].metadata.endOffset == |full|
    ensures forall k | 0 <= k < |cs| :: IsCutOut(cs[k], full, lines, cfg)
    ensures forall k: nat | k + 1 < |cs| :: SharesWithNext(cs, cfg, k)
  {
    full := FullText(lines, cfg.ops, "\n");
    FullTextExactly(lines, cfg.ops, "\n");
    if cfg.ops.trim(full) != "" {
      CharacterWindows(cfg, doc, lines, full, cs);
    }
  }

  /** The chunks stand where the windows do. */
  ghost predicate OffsetsAre(cs: seq<Chunk>, ws: seq<Windows.Window>) {
    && |cs| == |ws|
    && forall k | 0 <= k < |cs| ::
         cs[k].metadata.startOffset == ws[k].start && cs[k].metadata.endOffset == ws[k].end
  }

  lemma CharacterWindows(cfg: Config, doc: UUID, lines: seq<ExtractedLine>, full: string, cs: seq<Chunk>)
    requires lines != [] && CharacterSegmentation(cfg, doc, lines, full, cs) && cfg.target > 0
    ensures cs == [] <==> full == ""
    ensures cs != [] ==> cs[0].metadata.startOffset == 0 && cs[|cs| - 1].metadata.endOffset == |full|
    ensures forall k | 0 <= k < |cs| :: IsCutOut(cs[k], full, lines, cfg)
    ensures forall k: nat | k + 1 < |cs| :: SharesWithNext(cs, cfg, k)
  {
    var ws := CutByWindows(cfg, doc, lines, full, cs);
    var step := Windows.CalcStep(cfg.target * 4, cfg.overlap * 4);
    Windows.FromEndToEnd(ws, |full|, cfg.target * 4, step);
    forall k: nat | k + 1 < |cs| ensures SharesWithNext(cs, cfg, k) {
      Windows.SharedWithNext(ws, |full|, cfg.target * 4, cfg.overlap * 4, k);
    }
  }

  lemma CutByWindows(cfg: Config, doc: UUID, lines: seq<ExtractedLine>, full: string, cs: seq<Chunk>)
    returns (ws: seq<Windows.Window>)
    requires lines != [] && CharacterSegmentation(cfg, doc, lines, full, cs)
    ensures Windows.AreWindows(ws, |full|, cfg.target * 4, Windows.CalcStep(cfg.target * 4, cfg.overlap * 4))
    ensures OffsetsAre(cs, ws) && forall k | 0 <= k < |cs| :: IsCutOut(cs[k], full, lines, cfg)
  {
    ws :| Windows.AreWindows(ws, |full|, cfg.target * 4, Windows.CalcStep(cfg.target * 4, cfg.overlap * 4))
          && |cs| == |ws| && forall k | 0 <= k < |ws| :: IsCharacterChunk(cs[k], cfg, lines, doc, full, ws[k], k);
    forall k | 0 <= k < |cs|
      ensures cs[k].metadata.startOffset == ws[k].start && cs[k].metadata.endOffset == ws[k].end
      ensures IsCutOut(cs[k], full, lines, cfg)
    {
      assert IsCharacterChunk(cs[k], cfg, lines, doc, full, ws[k], k);
    }
  }

  /** Chunk k is four times the target long, and shares four times the overlap with the next,
      or half its length when the overlap is no smaller than the target. */
  ghost predicate SharesWithNext(cs: seq<Chunk>, cfg: Config, k: nat)
    requires k + 1 < |cs|
  {
    && cs[k].metadata.endOffset - cs[k].metadata.startOffset == 4 * cfg.target
    && cs[k].metadata.endOffset - cs[k + 1].metadata.startOffset
       == if cfg.overlap < cfg.target then 4 * cfg.overlap else 2 * cfg.target
  }

  /** The chunk's text is the document's at the chunk's offsets. */
  ghost predicate IsCutOut(c: Chunk, full: string, lines: seq<ExtractedLine>, cfg: Config)
    requires lines != []
  {
    && c.metadata.startOffset <= c.metadata.endOffset <= |full|
    && c.content == full[c.metadata.startOffset..c.metadata.endOffset]
    && c.metadata.tokenCount == cfg.tokens(c.content)
    && c.metadata.startPage == lines[0].page && c.metadata.endPage == lines[|lines| - 1].page
  }

  /** Exact mode on a text that encodes: the chunks are decoded windows of the token ids, from
      the first to the last; all but the last hold as many ids as the target, and neighbours
      share the overlap, or the larger half of a window when the overlap is no smaller. */
  lemma TokenChunksExactly(
    cfg: Config, e: Encoder, doc: UUID, lines: seq<ExtractedLine>, ids: seq<nat>, cs: seq<Chunk>)
    returns (full: string, ws: seq<Windows.Window>)
    requires IsSegmentation(cfg, doc, lines, cs) && cfg.strategy == Exact && lines != []
    requires cfg.target > 0 && cfg.overlap > 0 && cfg.encoder == Some(e)
    ensures IsFullText(full, lines, cfg.ops, " ")
    ensures cfg.ops.trim(full) == "" ==> cs == []
    ensures cfg.ops.trim(full) != "" && e.encode(full) == Some(ids) && ids != [] ==>
              && |ws| == |cs| > 0 && ws[0].start == 0 && ws[|ws| - 1].end == |ids|
              && (forall k | 0 <= k < |cs| :: IsDecoded(cs[k], e, ids, ws[k], full, lines, cfg))
              && forall k: nat | k + 1 < |ws| :: SharesIds(ws, cfg, k)
  {
    full, ws := FullText(lines, cfg.ops, " "), [];
    FullTextExactly(lines, cfg.ops, " ");
    if cfg.ops.trim(full) != "" && e.encode(full) == Some(ids) && ids != [] {
      ws := CutIntoIds(cfg, e, doc, lines, full, ids, cs);
      Windows.FromEndToEnd(ws, |ids|, cfg.target, Windows.CalcStep(cfg.target, cfg.overlap));
      AllShareIds(cfg, ids, ws);
    }
  }

  lemma AllShareIds(cfg: Config, ids: seq<nat>, ws: seq<Windows.Window>)
    requires Windows.AreWindows(ws, |ids|, cfg.target, Windows.CalcStep(cfg.target, cfg.overlap)) && cfg.target > 0
    ensures forall k: nat | k + 1 < |ws| :: SharesIds(ws, cfg, k)
  {
    forall k: nat | k + 1 < |ws| ensures SharesIds(ws, cfg, k) {
      Windows.SharedWithNext(ws, |ids|, cfg.target, cfg.overlap, k);
    }
  }

  lemma CutIntoIds(
    cfg: Config, e: Encoder, doc: UUID, lines: seq<ExtractedLine>, full: string, ids: seq<nat>, cs: seq<Chunk>)
    returns (ws: seq<Windows.Window>)
    requires lines != [] && full == FullText(lines, cfg.ops, " ")
    requires TokenSegmentation(cfg, e, doc, lines, ids, cs)
    ensures Windows.AreWindows(ws, |ids|, cfg.target, Windows.CalcStep(cfg.target, cfg.overlap))
    ensures |ws| == |cs| && forall k | 0 <= k < |cs| :: IsDecoded(cs[k], e, ids, ws[k], full, lines, cfg)
  {
    ws :| Windows.AreWindows(ws, |ids|, cfg.target, Windows.CalcStep(cfg.target, cfg.overlap)) && |cs| == |ws|
          && forall k | 0 <= k < |ws| :: IsTokenChunk(cs[k], cfg, e, lines, doc, ids, ws[k], k);
    forall k | 0 <= k < |cs| ensures IsDecoded(cs[k], e, ids, ws[k], full, lines, cfg) {
      assert IsTokenChunk(cs[k], cfg, e, lines, doc, ids, ws[k], k);
    }
  }

  /** Window k holds as many ids as the target and shares the overlap with the next, or the
      larger half of it when the overlap is no smaller than the target. */
  ghost predicate SharesIds(ws: seq<Windows.Window>, cfg: Config, k: nat)
    requires k + 1 < |ws|
  {
    && ws[k].end - ws[k].start == cfg.target
    && ws[k].end - ws[k + 1].start
       == if cfg.overlap < cfg.target then cfg.overlap else cfg.target - cfg.target / 2
  }

  /** The chunk's text is the window decoded, or the whole text if that fails. */
  ghost predicate IsDecoded(
    c: Chunk, e: Encoder, ids: seq<nat>, w: Windows.Window, full: string, lines: seq<ExtractedLine>, cfg: Config)
    requires lines != []
  {
    && w.start <= w.end <= |ids|
    && (match e.decode(ids[w.start..w.end]) case Some(s) => c.content == s case None => c.content == full)
    && c.metadata.tokenCount == cfg.tokens(c.content)
    && c.metadata.startPage == lines[0].page && c.metadata.endPage == lines[|lines| - 1].page
  }

  /** Paragraph mode, and exact mode without an encoder or on a text that does not encode: the
      chunks pack the document's paragraphs, and no text is lost, repeated or moved. */
  lemma ParagraphChunksExactly(cfg: Config, doc: UUID, lines: seq<ExtractedLine>, cs: seq<Chunk>)
    returns (us: seq<Packing.TextUnit>, ps: seq<Packing.Span>, spans: seq<Packing.Span>)
    requires IsSegmentation(cfg, doc, lines, cs) && lines != []
    requires cfg.strategy == Paragraph || (cfg.strategy == Exact && Unencoded(cfg, lines))
    ensures AreParagraphs(lines, cfg.ops, ps) && AreParagraphUnits(us, lines, cfg.ops, ps)
    ensures PacksAll(cs, UnitSettings(cfg), us, doc, spans)
  {
    if cfg.strategy == Exact {
      FallsBack(cfg, doc, lines, cs);
    }
    us :| ParagraphUnitsOf(us, lines, cfg.ops) && Packing.PackedInto(cs, UnitSettings(cfg), us, doc);
    ps :| AreParagraphs(lines, cfg.ops, ps) && AreParagraphUnits(us, lines, cfg.ops, ps);
    spans := PacksAllUnits(cs, UnitSettings(cfg), us, doc);
  }

  lemma FallsBack(cfg: Config, doc: UUID, lines: seq<ExtractedLine>, cs: seq<Chunk>)
    requires IsSegmentation(cfg, doc, lines, cs) && lines != []
    requires cfg.strategy == Exact && Unencoded(cfg, lines)
    ensures ParagraphSegmentation(cfg, doc, lines, cs)
  {
    var full :| IsFullText(full, lines, cfg.ops, " ") && cfg.ops.trim(full) != ""
                && (cfg.encoder == None || cfg.encoder.value.encode(full) == None
                    || cfg.encoder.value.encode(full) == Some([]));
    FullTextExactly(lines, cfg.ops, " ");
    FullTextUnique(full, FullText(lines, cfg.ops, " "), lines, cfg.ops, " ");
  }

  /** A text that is not blank and that the encoder, if there is one, cannot encode. */
  ghost predicate Unencoded(cfg: Config, lines: seq<ExtractedLine>) {
    exists full :: IsFullText(full, lines, cfg.ops, " ") && cfg.ops.trim(full) != ""
                   && (cfg.encoder == None || cfg.encoder.value.encode(full) == None
                       || cfg.encoder.value.encode(full) == Some([]))
  }

  /** Sentence mode: the chunks pack the document's sentences, and no text is lost, repeated
      or moved. */
  lemma SentenceChunksExactly(cfg: Config, doc: UUID, lines: seq<ExtractedLine>, cs: seq<Chunk>)
    returns (us: seq<Packing.TextUnit>, at: seq<Place>, spans: seq<Packing.Span>)
    requires IsSegmentation(cfg, doc, lines, cs) && cfg.strategy == Sentence && lines != []
    ensures AreSentences(us, lines, cfg.ops, at)
    ensures PacksAll(cs, UnitSettings(cfg), us, doc, spans)
  {
    us := SentenceUnits(lines, cfg);
    at := SentencesExactly(lines, cfg);
    spans := PacksAllUnits(cs, UnitSettings(cfg), us, doc);
  }

  /** The chunks pack the units by these spans, and their texts without what they carried over
      are the texts of all units. */
  ghost predicate PacksAll(
    cs: seq<Chunk>, cfg: Packing.Settings, us: seq<Packing.TextUnit>, doc: UUID, spans: seq<Packing.Span>)
  {
    && Packing.IsPacking(cfg, us, spans) && Packing.AreUnitChunks(cs, cfg, us, doc, spans)
    && Packing.FreshInside(us, spans)
    && LaidOut(Join(Packing.Added(cs, us, spans), "\n\n"), Packing.Texts(us), "\n\n")
  }

  lemma PacksAllUnits(cs: seq<Chunk>, cfg: Packing.Settings, us: seq<Packing.TextUnit>, doc: UUID)
    returns (spans: seq<Packing.Span>)
    requires Packing.PackedInto(cs, cfg, us, doc)
    ensures PacksAll(cs, cfg, us, doc, spans)
  {
    spans :| Packing.IsPacking(cfg, us, spans) && Packing.AreUnitChunks(cs, cfg, us, doc, spans);
    Packing.ContentsRebuild(cs, cfg, us, doc, spans);
  }

  // ------------------------------------------------------------------------ pages

  /** Each chunk's page range is an interval, and ranges never move backwards. */
  ghost predicate PageRangesInOrder(cs: seq<Chunk>) {
    && (forall k | 0 <= k < |cs| :: cs[k].metadata.startPage <= cs[k].metadata.endPage)
    && (forall k | 0 < k < |cs| :: RangeFollows(cs[k - 1], cs[k]))
  }

  ghost predicate RangeFollows(c: Chunk, d: Chunk) {
    c.metadata.startPage <= d.metadata.startPage && c.metadata.endPage <= d.metadata.endPage
  }

  lemma UnitChunkRange(
    cs: seq<Chunk>, cfg: Packing.Settings, us: seq<Packing.TextUnit>, doc: UUID, spans: seq<Packing.Span>, k: nat)
    requires Packing.IsPacking(cfg, us, spans) && Packing.AreUnitChunks(cs, cfg, us, doc, spans)
    requires Packing.PagesInOrder(us) && k < |cs|
    ensures cs[k].metadata.startPage <= cs[k].metadata.endPage
    ensures k > 0 ==> RangeFollows(cs[k - 1], cs[k])
  {
    Packing.MetadataExactly(cs, cfg, us, doc, spans, k);
    Packing.ChunkPagesInOrder(cfg, us, spans, k);
    if k > 0 {
      Packing.MetadataExactly(cs, cfg, us, doc, spans, k - 1);
    }
  }

  lemma UnitChunkRanges(cs: seq<Chunk>, cfg: Packing.Settings, us: seq<Packing.TextUnit>, doc: UUID)
    requires Packing.PackedInto(cs, cfg, us, doc) && Packing.PagesInOrder(us)
    ensures PageRangesInOrder(cs)
  {
    var spans :| Packing.IsPacking(cfg, us, spans) && Packing.AreUnitChunks(cs, cfg, us, doc, spans);
    forall k | 0 <= k < |cs|
      ensures cs[k].metadata.startPage <= cs[k].metadata.endPage
      ensures k > 0 ==> RangeFollows(cs[k - 1], cs[k])
    {
      UnitChunkRange(cs, cfg, us, doc, spans, k);
    }
  }

  /** All chunks of a window mode carry the page range of the whole document. */
  lemma WholeDocumentRanges(cs: seq<Chunk>, lines: seq<ExtractedLine>)
    requires lines != [] && PagesNondecreasing(lines)
    requires forall k | 0 <= k < |cs| ::
               cs[k].metadata.startPage == lines[0].page && cs[k].metadata.endPage == lines[|lines| - 1].page
    ensures PageRangesInOrder(cs)
  {
  }

  lemma SegmentationRanges(cfg: Config, doc: UUID, lines: seq<ExtractedLine>, cs: seq<Chunk>)
    requires IsSegmentation(cfg, doc, lines, cs) && PagesNondecreasing(lines)
    ensures PageRangesInOrder(cs)
  {
    if lines != [] {
      if cfg.strategy == Sentence {
        SentencePagesInOrder(lines, cfg);
        UnitChunkRanges(cs, UnitSettings(cfg), SentenceUnits(lines, cfg), doc);
      } else if ParagraphSegmentation(cfg, doc, lines, cs) {
        var us :| ParagraphUnitsOf(us, lines, cfg.ops) && Packing.PackedInto(cs, UnitSettings(cfg), us, doc);
        ParagraphPagesInOrder(us, lines, cfg.ops);
        UnitChunkRanges(cs, UnitSettings(cfg), us, doc);
      } else {
        WholeDocumentRanges(cs, lines);
      }
    }
  }

  /** Page provenance end to end: from the raw stream through header removal to the chunks,
      page ranges are intervals in order. */
  lemma PagesEndToEnd(stream: seq<string>, cfg: Config, doc: UUID, cs: seq<Chunk>)
    requires IsSegmentation(cfg, doc, Kept(Extracted(stream, cfg.ops), Extracted(stream, cfg.ops), cfg.ops), cs)
    ensures PageRangesInOrder(cs)
  {
    var raw := Extracted(stream, cfg.ops);
    ExtractedPagesInOrder(stream, cfg.ops);
    NormalizedPagesInOrder(raw, cfg.ops);
    SegmentationRanges(cfg, doc, Kept(raw, raw, cfg.ops), cs);
  }

  // --------------------------------------------------------------- reconstruction

  /** The first stride of the contents of the first k chunks, joined. */
  ghost function JoinStrides(cs: seq<Chunk>, step: nat, k: nat): string
    requires k <= |cs| && forall j | 0 <= j < k :: step <= |cs[j].content|
    decreases k
  {
    if k == 0 then "" else JoinStrides(cs, step, k - 1) + cs[k - 1].content[..step]
  }

  /** Chunk by chunk, the contents are the windows of the full text. */
  ghost predicate ContentsAre(cs: seq<Chunk>, full: string, ws: seq<Windows.Window>) {
    |cs| == |ws| && forall k | 0 <= k < |ws| :: ContentIs(cs[k], full, ws[k])
  }

  ghost predicate ContentIs(c: Chunk, full: string, w: Windows.Window) {
    w.start <= w.end <= |full| && c.content == full[w.start..w.end]
  }

  /** Character mode loses nothing: the first stride of every chunk but the last, then the
      whole last chunk, is the full text. */
  lemma CharacterChunksRebuildText(cfg: Config, doc: UUID, lines: seq<ExtractedLine>, full: string, cs: seq<Chunk>)
    requires lines != [] && cfg.target > 0 && cfg.overlap > 0 && full != ""
    requires CharacterSegmentation(cfg, doc, lines, full, cs)
    ensures var step := Windows.CalcStep(cfg.target * 4, cfg.overlap * 4);
            && cs != []
            && (forall j | 0 <= j < |cs| - 1 :: step <= |cs[j].content|)
            && JoinStrides(cs, step, |cs| - 1) + cs[|cs| - 1].content == full
  {
    var width, step := cfg.target * 4, Windows.CalcStep(cfg.target * 4, cfg.overlap * 4);
    var ws :| Windows.AreWindows(ws, |full|, width, step) && |cs| == |ws|
              && forall k | 0 <= k < |ws| :: IsCharacterChunk(cs[k], cfg, lines, doc, full, ws[k], k);
    Windows.CharacterStepPositive(cfg.target, cfg.overlap);
    assert ContentsAre(cs, full, ws);
    WindowContentsRebuildText(cs, full, ws, width, step);
  }

  lemma WindowContentsRebuildText(cs: seq<Chunk>, full: string, ws: seq<Windows.Window>, width: nat, step: nat)
    requires ContentsAre(cs, full, ws) && full != ""
    requires Windows.AreWindows(ws, |full|, width, step) && step <= width
    ensures cs != [] && forall j | 0 <= j < |cs| - 1 :: step <= |cs[j].content|
    ensures JoinStrides(cs, step, |cs| - 1) + cs[|cs| - 1].content == full
  {
    Windows.Reconstruction(full, ws, width, step);
    var m := |cs| - 1;
    forall j | 0 <= j < m ensures step <= |cs[j].content| {
      assert ContentIs(cs[j], full, ws[j]);
    }
    StridesOfContents(cs, full, ws, step, m);
    assert ContentIs(cs[m], full, ws[m]);
  }

  lemma {:induction false} StridesOfContents(cs: seq<Chunk>, full: string, ws: seq<Windows.Window>, step: nat, k: nat)
    requires ContentsAre(cs, full, ws) && k <= |cs|
    requires forall j | 0 <= j < k :: ws[j].start + step <= ws[j].end
    ensures forall j | 0 <= j < k :: step <= |cs[j].content| && ws[j].start + step <= |full|
    ensures JoinStrides(cs, step, k) == Windows.Strides(full, ws, step, k)
    decreases k
  {
    forall j | 0 <= j < k ensures step <= |cs[j].content| && ws[j].start + step <= |full| {
      assert ContentIs(cs[j], full, ws[j]);
    }
    if k > 0 {
      StridesOfContents(cs, full, ws, step, k - 1);
      assert ContentIs(cs[k - 1], full, ws[k - 1]);
      assert cs[k - 1].content[..step] == full[ws[k - 1].start..ws[k - 1].start + step];
    }
  }
}
