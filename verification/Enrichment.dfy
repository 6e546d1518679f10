/** Chunk enrichment (nlp_pipeline.go): text clean-up and a keep-or-drop decision per chunk,
    run as one goroutine per chunk, and the near-duplicate index behind it. */
module Enrichment {
  import opened Domain
  import Keywords
  import MinHash

  const TOP_KEYWORDS: nat := 8

  /** Text functions taken as given: normalization (empty when nothing is left), the quality
      threshold, the profiler's language and token count, the named entities, white space,
      the word lists of a text's sentences, and lower-casing and splitting. */
  datatype Profile = Profile(
    normalize: string -> string, passes: string -> bool, language: string -> string, tokens: string -> nat,
    entities: string -> seq<string>, blank: string -> bool, sentences: string -> seq<seq<string>>,
    lexicon: Keywords.Lexicon, words: string -> seq<string>)

  predicate Keeps(p: Profile, c: Chunk) {
    p.normalize(c.content) != "" && p.passes(p.normalize(c.content))
  }

  /** A kept chunk after enrichment, near being the near duplicate's vector if there is one. */
  function Enriched(p: Profile, c: Chunk, near: Option<UUID>, keywords: seq<string>): Chunk {
    var text := p.normalize(c.content);
    c.(content := text,
       metadata := c.metadata.(language := p.language(text), tokenCount := p.tokens(text),
                               entities := p.entities(text), keywords := keywords),
       vectorId := if near.Some? then near.value else c.vectorId)
  }

  /** The phrases as strings: their words with blanks between them. */
  function Spellings(ranking: seq<Keywords.KeywordScore>): (r: seq<string>)
    ensures |r| == |ranking|
  {
    seq(|ranking|, i requires 0 <= i < |ranking| => Join(ranking[i].keyword, " "))
  }

  /** The keywords spell a ranking of the text's phrases, cut at eight. */
  ghost predicate SpellsKeywords(p: Profile, text: string, keywords: seq<string>) {
    exists ranking :: keywords == Spellings(ranking)
                      && if p.blank(text) then ranking == []
                         else Keywords.AreKeywords(ranking, p.sentences(text), p.lexicon, TOP_KEYWORDS)
  }

  /** What a chunk may become: everything but the near duplicate and the order among equally
      scored keywords is fixed by the chunk. */
  ghost predicate EnrichedFrom(p: Profile, out: Chunk, c: Chunk) {
    && (exists near :: out == Enriched(p, c, near, out.metadata.keywords))
    && SpellsKeywords(p, out.content, out.metadata.keywords)
  }

  // -------------------------------------------------------- which chunks survive

  /** The positions of the kept chunks, in order. */
  ghost function KeptAt(p: Profile, cs: seq<Chunk>): seq<nat> {
    if cs == [] then []
    else KeptAt(p, cs[..|cs| - 1]) + if Keeps(p, cs[|cs| - 1]) then [|cs| - 1] else []
  }

  lemma {:induction false} KeptInOrder(p: Profile, cs: seq<Chunk>)
    ensures |KeptAt(p, cs)| <= |cs|
    ensures forall j | 0 <= j < |KeptAt(p, cs)| :: KeptAt(p, cs)[j] < |cs| && Keeps(p, cs[KeptAt(p, cs)[j]])
    ensures forall j, k | 0 <= j < k < |KeptAt(p, cs)| :: KeptAt(p, cs)[j] < KeptAt(p, cs)[k]
    ensures forall i: nat | i < |cs| && Keeps(p, cs[i]) :: i in KeptAt(p, cs)
  {
    if cs != [] {
      KeptInOrder(p, cs[..|cs| - 1]);
    }
  }

  /** out is cs without the dropped chunks, enriched, in the order of cs. */
  ghost predicate IsFiltered(p: Profile, out: seq<Chunk>, cs: seq<Chunk>) {
    |out| == |KeptAt(p, cs)| && forall j | 0 <= j < |out| :: FilteredAt(p, out, cs, j)
  }

  ghost predicate FilteredAt(p: Profile, out: seq<Chunk>, cs: seq<Chunk>, j: int)
    requires 0 <= j < |out| == |KeptAt(p, cs)|
  {
    KeptAt(p, cs)[j] < |cs| && EnrichedFrom(p, out[j], cs[KeptAt(p, cs)[j]])
  }

  /** No kept chunk follows a dropped one. */
  ghost predicate KeptPrefix(p: Profile, cs: seq<Chunk>) {
    forall i, j | 0 <= i < j < |cs| && Keeps(p, cs[j]) :: Keeps(p, cs[i])
  }

  /** The kept positions are 0, 1, 2, ... exactly when they form a prefix. */
  lemma {:induction false} PrefixPositions(p: Profile, cs: seq<Chunk>)
    ensures KeptPrefix(p, cs) <==> forall j | 0 <= j < |KeptAt(p, cs)| :: KeptAt(p, cs)[j] == j
  {
    KeptInOrder(p, cs);
    var at := KeptAt(p, cs);
    if KeptPrefix(p, cs) {
      forall j | 0 <= j < |at| ensures at[j] == j {
        PositionIsRank(p, cs, j);
      }
    } else {
      var i: nat, j: nat :| i < j < |cs| && Keeps(p, cs[j]) && !Keeps(p, cs[i]);
      var k :| 0 <= k < |at| && at[k] == j;
      assert at[k] != k || at[i] != i;
    }
  }

  lemma {:induction false} PositionIsRank(p: Profile, cs: seq<Chunk>, j: nat)
    requires KeptPrefix(p, cs) && j < |KeptAt(p, cs)|
    ensures KeptAt(p, cs)[j] == j
    decreases j
  {
    KeptInOrder(p, cs);
    var at := KeptAt(p, cs);
    if j > 0 {
      PositionIsRank(p, cs, j - 1);
      assert at[j - 1] < at[j];
    }
    assert at[j] >= j;
    assert Keeps(p, cs[at[j]]);
    assert Keeps(p, cs[j]);
    var k :| 0 <= k < |at| && at[k] == j;
  }

  // ------------------------------------------------------------------- pairing

  ghost predicate DistinctChunkHashes(cs: seq<Chunk>) {
    forall i, j | 0 <= i < j < |cs| :: cs[i].hash != cs[j].hash
  }

  /** One vector per chunk, each with the chunk's hash: what the embedder returns. */
  ghost predicate EmbeddingsOf(vs: seq<Vector>, cs: seq<Chunk>) {
    |vs| == |cs| && forall i | 0 <= i < |cs| :: vs[i].hash == cs[i].hash
  }

  /** Kept chunk j and vector j carry the same hash. */
  ghost predicate HashCorrect(out: seq<Chunk>, vs: seq<Vector>) {
    |out| <= |vs| && forall j | 0 <= j < |out| :: vs[j].hash == out[j].hash
  }

  /** The worker pairs kept chunks and vectors by position. That is right for every kept
      chunk exactly when the kept chunks form a prefix, given distinct hashes; without
      distinct hashes the prefix still suffices. */
  lemma PairingExact(p: Profile, cs: seq<Chunk>, vs: seq<Vector>, out: seq<Chunk>)
    requires EmbeddingsOf(vs, cs) && IsFiltered(p, out, cs)
    ensures |out| <= |vs|
    ensures KeptPrefix(p, cs) ==> HashCorrect(out, vs)
    ensures DistinctChunkHashes(cs) ==> (HashCorrect(out, vs) <==> KeptPrefix(p, cs))
  {
    KeptInOrder(p, cs);
    PrefixPositions(p, cs);
    var at := KeptAt(p, cs);
    forall j | 0 <= j < |out| ensures out[j].hash == cs[at[j]].hash {
      assert FilteredAt(p, out, cs, j);
    }
    if DistinctChunkHashes(cs) && HashCorrect(out, vs) {
      forall j | 0 <= j < |at| ensures at[j] == j {
        assert cs[j].hash == cs[at[j]].hash;
      }
    }
  }

  // ------------------------------------------------------------------ the code

  class NLPPipeline<D(==,!new)> {
    const profile: Profile
    const lsh: MinHash.MinHashLSH<D>

    constructor (profile: Profile, lsh: MinHash.MinHashLSH<D>)
      ensures this.profile == profile && this.lsh == lsh
    {
      this.profile, this.lsh := profile, lsh;
    }

    ghost predicate IsTextSignature(sig: seq<nat>, text: string) {
      && |lsh.aCoeffs| == |lsh.bCoeffs|
      && MinHash.IsSignature(sig, lsh.aCoeffs, lsh.bCoeffs, MinHash.ShingleSet(text, profile.words(text), lsh.hash))
    }

    /** The near duplicate of a text is what a linear scan over the first k registrations
        reports for the text's signature. */
    ghost predicate NearAnswer(text: string, near: Option<UUID>, history: seq<MinHash.Indexed>, k: nat) {
      && k <= |history| && |lsh.aCoeffs| == |lsh.bCoeffs|
      && exists sig ::
           && IsTextSignature(sig, text)
           && lsh.numBands * lsh.rowsPerBand <= |sig|
           && (forall e | e in history[..k] :: lsh.numBands * lsh.rowsPerBand <= |e.sig|)
           && MinHash.ScanAnswer(history[..k], lsh.rowsPerBand, lsh.numBands, lsh.digest, sig, near)
    }

    /** Other workers register vectors in the meantime. */
    method OtherWorkers()
      requires lsh.Valid()
      modifies lsh
      ensures lsh.Valid() && old(lsh.history) <= lsh.history
    {
    }

    /** Cleans and judges one chunk; a kept chunk of which the index knows a near duplicate
        is given that duplicate's vector. */
    method EnrichChunk(chunk: Chunk) returns (kept: bool, out: Chunk, ghost near: Option<UUID>)
      requires lsh.Valid()
      ensures kept <==> Keeps(profile, chunk)
      ensures var text := profile.normalize(chunk.content);
              && (kept <==> text != "" && profile.passes(text))
              && (kept ==>
                    && out.content == text && out.hash == chunk.hash
                    && out.id == chunk.id && out.documentId == chunk.documentId && out.index == chunk.index
                    && out.vectorId == (if near.Some? then near.value else chunk.vectorId)
                    && out.metadata.tokenCount == profile.tokens(text)
                    && out.metadata.language == profile.language(text)
                    && out.metadata.entities == profile.entities(text)
                    && SpellsKeywords(profile, text, out.metadata.keywords))
      ensures kept ==>
                && out.metadata.startPage == chunk.metadata.startPage
                && out.metadata.endPage == chunk.metadata.endPage
                && out.metadata.startOffset == chunk.metadata.startOffset
                && out.metadata.endOffset == chunk.metadata.endOffset
      ensures kept ==> EnrichedFrom(profile, out, chunk) && out == Enriched(profile, chunk, near, out.metadata.keywords)
      ensures kept ==> NearAnswer(profile.normalize(chunk.content), near, lsh.history, |lsh.history|)
    {
      out, near := chunk, None;
      var text := profile.normalize(chunk.content);
      if text == "" {
        return false, out, None;
      }
      out := out.(content := text);
      if !profile.passes(text) {
        return false, out, None;
      }
      var keywords := TextKeywords(text);
      out := out.(metadata := out.metadata.(language := profile.language(text), tokenCount := profile.tokens(text),
                                            entities := profile.entities(text), keywords := keywords));
      var answer := NearDuplicate(text);
      if answer.Some? {
        out := out.(vectorId := answer.value);
      }
      kept, near := true, answer;
      assert out == Enriched(profile, chunk, near, keywords);
    }

    /** Signs the text and asks the index. */
    method NearDuplicate(text: string) returns (near: Option<UUID>)
      requires lsh.Valid()
      ensures NearAnswer(text, near, lsh.history, |lsh.history|)
    {
      var sig := lsh.ComputeSignature(text, profile.words(text));
      near := lsh.FindNearDuplicate(sig);
      assert lsh.history[..|lsh.history|] == lsh.history;
    }

    /** The eight best keywords, spelled out one by one. */
    method TextKeywords(text: string) returns (keywords: seq<string>)
      ensures SpellsKeywords(profile, text, keywords)
    {
      var ranking := Keywords.ExtractKeywords(
        profile.sentences(text), profile.lexicon, profile.blank(text), TOP_KEYWORDS);
      keywords := SpellOut(ranking);
    }

    method SpellOut(ranking: seq<Keywords.KeywordScore>) returns (keywords: seq<string>)
      ensures keywords == Spellings(ranking)
      ensures |keywords| == |ranking| && forall i | 0 <= i < |ranking| :: keywords[i] == Join(ranking[i].keyword, " ")
    {
      keywords := [];
      for i := 0 to |ranking|
        invariant keywords == Spellings(ranking)[..i]
      {
        keywords := keywords + [Join(ranking[i].keyword, " ")];
      }
    }

    /** out is c, enriched with what the index answered when it held the first k registrations
        of the history, for some k from from on. */
    ghost predicate AnsweredFrom(out: Chunk, c: Chunk, history: seq<MinHash.Indexed>, from: nat) {
      exists near, k: nat ::
        && NearAnswer(out.content, near, history, k) && from <= k
        && out == Enriched(profile, c, near, out.metadata.keywords)
    }

    lemma NearStays(
      text: string, near: Option<UUID>, history: seq<MinHash.Indexed>, more: seq<MinHash.Indexed>, k: nat)
      requires NearAnswer(text, near, history, k) && history <= more
      ensures NearAnswer(text, near, more, k)
    {
      assert more[..k] == history[..k];
    }

    lemma AnsweredStays(
      out: Chunk, c: Chunk, history: seq<MinHash.Indexed>, more: seq<MinHash.Indexed>, from: nat)
      requires AnsweredFrom(out, c, history, from) && history <= more
      ensures AnsweredFrom(out, c, more, from)
    {
      var near, k: nat :| NearAnswer(out.content, near, history, k) && from <= k
                          && out == Enriched(profile, c, near, out.metadata.keywords);
      NearStays(out.content, near, history, more, k);
    }

    /** A goroutine's slot when it is done. */
    ghost predicate SlotAnswered(slot: Option<Chunk>, c: Chunk, history: seq<MinHash.Indexed>, from: nat) {
      SlotDone(profile, slot, c) && (slot.Some? ==> AnsweredFrom(slot.value, c, history, from))
    }

    ghost predicate SlotsAnswered(
      slots: seq<Option<Chunk>>, cs: seq<Chunk>, running: set<nat>, history: seq<MinHash.Indexed>, from: nat)
    {
      |slots| == |cs| && forall i: nat | i < |cs| && i !in running :: SlotAnswered(slots[i], cs[i], history, from)
    }

    lemma SlotsStay(
      slots: seq<Option<Chunk>>, cs: seq<Chunk>, running: set<nat>, history: seq<MinHash.Indexed>,
      more: seq<MinHash.Indexed>, from: nat)
      requires SlotsAnswered(slots, cs, running, history, from) && history <= more
      ensures SlotsAnswered(slots, cs, running, more, from)
    {
      forall i: nat | i < |cs| && i !in running ensures SlotAnswered(slots[i], cs[i], more, from) {
        assert SlotAnswered(slots[i], cs[i], history, from);
        if slots[i].Some? {
          AnsweredStays(slots[i].value, cs[i], history, more, from);
        }
      }
    }

    /** Every kept chunk carries the index's answer at some time from from on. */
    ghost predicate AllAnswered(out: seq<Chunk>, cs: seq<Chunk>, history: seq<MinHash.Indexed>, from: nat) {
      |out| == |KeptAt(profile, cs)| && forall j | 0 <= j < |out| :: AnsweredNth(out, cs, history, from, j)
    }

    ghost predicate AnsweredNth(out: seq<Chunk>, cs: seq<Chunk>, history: seq<MinHash.Indexed>, from: nat, j: int)
      requires 0 <= j < |out| == |KeptAt(profile, cs)|
    {
      KeptAt(profile, cs)[j] < |cs| && AnsweredFrom(out[j], cs[KeptAt(profile, cs)[j]], history, from)
    }

    /** One goroutine per chunk, finishing in any order, each writing its own slot; then
        the empty slots are skipped. Order is kept whatever the schedule, and each kept chunk
        carries what the index answered at some time during the call. */
    method EnrichChunksParallel(rawChunks: seq<Chunk>) returns (enriched: seq<Chunk>)
      requires lsh.Valid()
      modifies lsh
      ensures lsh.Valid() && old(lsh.history) <= lsh.history
      ensures IsFiltered(profile, enriched, rawChunks)
      ensures AllAnswered(enriched, rawChunks, lsh.history, |old(lsh.history)|)
    {
      var results := new Option<Chunk>[|rawChunks|](_ => None);
      var running := Below(|rawChunks|);
      ghost var from := |lsh.history|;
      while running != {}
        invariant lsh.Valid() && old(lsh.history) <= lsh.history
        invariant forall i | i in running :: i < |rawChunks|
        invariant SlotsAnswered(results[..], rawChunks, running, lsh.history, from)
        decreases running
      {
        var idx :| idx in running;
        ghost var slots := results[..];
        var slot := EnrichNth(rawChunks, idx, slots, running, from);
        results[idx] := slot;
        running := running - {idx};
        assert results[..] == slots[idx := slot];
      }
      enriched := Collect(results, rawChunks, lsh.history, from);
    }

    /** One goroutine, after others had their turn. */
    method EnrichNth(rawChunks: seq<Chunk>, idx: nat, ghost slots: seq<Option<Chunk>>, ghost running: set<nat>,
                     ghost from: nat)
      returns (slot: Option<Chunk>)
      requires lsh.Valid() && idx < |rawChunks| && from <= |lsh.history|
      requires SlotsAnswered(slots, rawChunks, running, lsh.history, from)
      modifies lsh
      ensures lsh.Valid() && old(lsh.history) <= lsh.history
      ensures SlotsAnswered(slots[idx := slot], rawChunks, running - {idx}, lsh.history, from)
    {
      ghost var before := lsh.history;
      OtherWorkers();
      SlotsStay(slots, rawChunks, running, before, lsh.history, from);
      var kept, out, near := EnrichChunk(rawChunks[idx]);
      slot := if kept then Some(out) else None;
      SlotFilled(kept, out, near, rawChunks[idx], lsh.history, from);
    }

    lemma SlotFilled(
      kept: bool, out: Chunk, near: Option<UUID>, c: Chunk, history: seq<MinHash.Indexed>, from: nat)
      requires (kept <==> Keeps(profile, c)) && from <= |history|
      requires kept ==> EnrichedFrom(profile, out, c) && out == Enriched(profile, c, near, out.metadata.keywords)
      requires kept ==> NearAnswer(profile.normalize(c.content), near, history, |history|)
      ensures SlotAnswered(if kept then Some(out) else None, c, history, from)
    {
      assert kept ==> NearAnswer(out.content, near, history, |history|);
    }

    /** Skips the empty slots. */
    method Collect(results: array<Option<Chunk>>, rawChunks: seq<Chunk>, ghost history: seq<MinHash.Indexed>,
                   ghost from: nat)
      returns (enriched: seq<Chunk>)
      requires SlotsAnswered(results[..], rawChunks, {}, history, from)
      ensures IsFiltered(profile, enriched, rawChunks) && AllAnswered(enriched, rawChunks, history, from)
    {
      enriched := [];
      for i := 0 to |rawChunks|
        invariant IsFiltered(profile, enriched, rawChunks[..i])
        invariant AllAnswered(enriched, rawChunks[..i], history, from)
      {
        assert SlotAnswered(results[..][i], rawChunks[i], history, from);
        FilterNext(profile, enriched, rawChunks, i, results[i]);
        AnswerNext(enriched, rawChunks, i, results[i], history, from);
        if results[i].Some? {
          enriched := enriched + [results[i].value];
        }
      }
      assert rawChunks[..|rawChunks|] == rawChunks;
    }

    lemma AnswerNext(
      out: seq<Chunk>, cs: seq<Chunk>, i: nat, slot: Option<Chunk>, history: seq<MinHash.Indexed>, from: nat)
      requires i < |cs| && AllAnswered(out, cs[..i], history, from) && SlotAnswered(slot, cs[i], history, from)
      ensures AllAnswered(if slot.Some? then out + [slot.value] else out, cs[..i + 1], history, from)
    {
      var longer, part := if slot.Some? then out + [slot.value] else out, cs[..i + 1];
      assert part[..i] == cs[..i];
      forall j | 0 <= j < |longer| ensures AnsweredNth(longer, part, history, from, j) {
        if j < |out| {
          assert AnsweredNth(out, cs[..i], history, from, j);
        }
      }
    }

    method RegisterChunkVector(text: string, vectorId: UUID)
      requires lsh.Valid()
      modifies lsh
      ensures lsh.Valid()
      ensures |lsh.history| == |old(lsh.history)| + 1 && old(lsh.history) <= lsh.history
      ensures var e := lsh.history[|lsh.history| - 1];
              e.id == vectorId && IsTextSignature(e.sig, text)
    {
      var sig := lsh.ComputeSignature(text, profile.words(text));
      lsh.IndexSignature(sig, vectorId);
    }
  }

  /** A slot holds the enriched chunk exactly when the chunk is kept. */
  ghost predicate SlotDone(p: Profile, slot: Option<Chunk>, c: Chunk) {
    && (slot.Some? <==> Keeps(p, c))
    && (slot.Some? ==> EnrichedFrom(p, slot.value, c))
  }

  lemma FilterNext(p: Profile, out: seq<Chunk>, cs: seq<Chunk>, i: nat, slot: Option<Chunk>)
    requires i < |cs| && IsFiltered(p, out, cs[..i]) && SlotDone(p, slot, cs[i])
    ensures IsFiltered(p, if slot.Some? then out + [slot.value] else out, cs[..i + 1])
  {
    var longer := if slot.Some? then out + [slot.value] else out;
    var part := cs[..i + 1];
    assert part[..i] == cs[..i];
    forall j | 0 <= j < |longer| ensures FilteredAt(p, longer, part, j) {
      if j < |out| {
        assert FilteredAt(p, out, cs[..i], j);
      }
    }
  }
}
