/** The pipeline worker (pipeline_worker.go): one document from the text stream to rows, and
    a worker handling one event after another while others do the same. */
module Worker {
  import opened Domain
  import opened Pages
  import opened Repository
  import opened Deduplicator
  import opened Enrichment
  import opened Runs
  import opened RunLaws
  import MinHash
  import opened SaveLaws
  import SegmentLaws
  import Segmenter
  import Vectorizer

  datatype Event = Event(documentId: string, fileKey: string)

  /** How a scan ends. The extractor closes its channel before it returns, and the worker looks
      at the error as soon as the channel is closed: it may or may not be set by then. */
  datatype Scan = Complete | Broken(seen: bool)

  /** Everything outside the service that one call meets: the lines the scanner got to read,
      generated ids, the caches' and tables' answers, the embedding service, and the save's
      round trips. */
  datatype IO = IO(
    stream: Option<seq<string>>, scan: Scan, chunkIds: nat -> UUID, randomDoc: UUID,
    lookup: LookupIO, api: Vectorizer.Api, stored: nat -> bool, faults: SaveFaults)

  /** The chunks with their canonical hashes, as the deduplicator leaves them. */
  function Hashed(cs: seq<Chunk>, canonical: string -> string): (r: seq<Chunk>)
    ensures |r| == |cs|
  {
    seq(|cs|, i requires 0 <= i < |cs| => cs[i].(hash := canonical(cs[i].content)))
  }

  /** raw is the hashed segmentation of the lines, with ids from newId. */
  ghost predicate IsRaw(
    cfg: Segmenter.Config, canonical: string -> string, doc: UUID, lines: seq<ExtractedLine>, newId: nat -> UUID,
    raw: seq<Chunk>)
  {
    exists cs :: Segmenter.IsSegmentation(cfg, doc, lines, cs) && IdsFrom(cs, newId) && raw == Hashed(cs, canonical)
  }

  /** Redelivering an event whose document id parses yields the same document. */
  lemma SameEventSameDocument(
    cfg: Segmenter.Config, canonical: string -> string, doc: UUID, lines: seq<ExtractedLine>,
    p: nat -> UUID, q: nat -> UUID, a: seq<Chunk>, b: seq<Chunk>)
    requires IsRaw(cfg, canonical, doc, lines, p, a) && IsRaw(cfg, canonical, doc, lines, q, b)
    ensures SameDocument(a, b)
    ensures p == q ==> a == b
  {
    var cs :| Segmenter.IsSegmentation(cfg, doc, lines, cs) && IdsFrom(cs, p) && a == Hashed(cs, canonical);
    var ds :| Segmenter.IsSegmentation(cfg, doc, lines, ds) && IdsFrom(ds, q) && b == Hashed(ds, canonical);
    SegmentLaws.SegmentationDeterministic(cfg, doc, lines, cs, ds);
    forall k: nat | k < |a| ensures SameChunk(a[k], b[k]) && (p == q ==> a[k] == b[k]) {
      assert SegmentLaws.SameButId(cs[k], ds[k]);
    }
  }

  /** Chunk k of a document has the document's id and index k, whatever the text. */
  lemma RawNumbered(
    cfg: Segmenter.Config, canonical: string -> string, doc: UUID, lines: seq<ExtractedLine>, newId: nat -> UUID,
    raw: seq<Chunk>, k: nat)
    requires IsRaw(cfg, canonical, doc, lines, newId, raw) && k < |raw|
    ensures raw[k].documentId == doc && raw[k].index == k && raw[k].id == newId(k)
    ensures raw[k].hash == canonical(raw[k].content) && raw[k].vectorId == NIL
  {
    var cs :| Segmenter.IsSegmentation(cfg, doc, lines, cs) && IdsFrom(cs, newId) && raw == Hashed(cs, canonical);
    SegmentLaws.SegmentationNumbered(cfg, doc, lines, cs);
  }

  /** No two chunks of a document share an id or a position. */
  lemma RawUnique(
    cfg: Segmenter.Config, canonical: string -> string, doc: UUID, lines: seq<ExtractedLine>, newId: nat -> UUID,
    raw: seq<Chunk>)
    requires IsRaw(cfg, canonical, doc, lines, newId, raw) && IdsDiffer(newId)
    ensures UniqueRows(raw)
  {
    forall i: nat, j: nat | i < j < |raw| ensures !Clash(raw[i], raw[j]) {
      RawNumbered(cfg, canonical, doc, lines, newId, raw, i);
      RawNumbered(cfg, canonical, doc, lines, newId, raw, j);
    }
  }

  /** A run that leaves the caches as right as it found them: its ids are its own, the
      pairing was right, and what it registered became rows or was allowed for. */
  ghost predicate Harmless(r: Run, w: World)
    requires DistinctIds(r.vectors)
  {
    && OwnIds(r, w.owner) && HashCorrect(r.enriched, r.vectors)
    && forall e | e in Registered(r) :: e in w.pending || RunLaws.IsRow(After(r), e)
  }

  /** With nothing allowed for, clean runs are harmless. */
  lemma CleanIsHarmless(p: Profile, r: Run, w: World)
    requires IsRun(p, r) && OwnIds(r, w.owner) && Clean(r)
    ensures Harmless(r, w)
  {
    CleanRunSettles(p, r);
  }

  /** With every owned pair allowed for, the right pairing is all it takes; commits, races
      and renames do not matter. */
  lemma OwnedIsHarmless(p: Profile, r: Run, w: World)
    requires IsRun(p, r) && OwnIds(r, w.owner) && HashCorrect(r.enriched, r.vectors)
    requires w.pending == iset e: Entry | w.owner(e.id) == e.hash
    ensures Harmless(r, w)
  {
  }

  lemma PendingAbsorbed(m: map<string, UUID>, db: Database, w: World, es: iset<Entry>)
    requires Within(m, Table(db), WithPending(w, es))
    requires forall e | e in es :: e in w.pending || RunLaws.IsRow(db, e)
    ensures Within(m, Table(db), w)
  {
  }

  /** Where a call of ProcessDocument ended, with what it had in hand by then. */
  datatype Stop =
    | NoEvent
    | NoObject
    | Unreadable
    | NoChunks
    | NoAnswer(raw: seq<Chunk>, tiers: Tiers)
    | NoVectors(raw: seq<Chunk>, tiers: Tiers, found: map<string, UUID>)
    | Reached(raw: seq<Chunk>, tiers: Tiers, run: Run)

  /** The call reports success: there was nothing to do, or its rows are committed. */
  predicate Succeeded(stop: Stop) {
    stop.NoEvent? || stop.NoChunks? || (stop.Reached? && stop.run.committed)
  }

  /** The call got as far as the lookup. */
  predicate Asked(stop: Stop) {
    stop.NoAnswer? || stop.NoVectors? || stop.Reached?
  }

  /** The tiers a call asked, if it got that far. */
  function TiersOf(stop: Stop): Tiers {
    if Asked(stop) then stop.tiers else Tiers(map[], map[], map[])
  }

  function StoppedWith(stop: Stop): seq<Chunk> {
    if Asked(stop) then stop.raw else []
  }

  ghost predicate Reports(oks: seq<bool>, stops: seq<Stop>) {
    |oks| == |stops| && forall i | 0 <= i < |stops| :: oks[i] == Succeeded(stops[i])
  }

  lemma ReportsNext(oks: seq<bool>, stops: seq<Stop>, ok: bool, stop: Stop)
    requires Reports(oks, stops) && ok == Succeeded(stop)
    ensures Reports(oks + [ok], stops + [stop])
  {
  }

  class PipelineWorker<D(==,!new)> {
    const config: Segmenter.Config
    const parse: string -> Option<UUID>
    const repo: VectorRepository
    const dedup: ChunkDeduplicator
    const nlp: NLPPipeline<D>

    ghost predicate Valid()
      reads dedup, dedup.redis, nlp.lsh
    {
      && dedup.repo == repo && dedup.Valid() && nlp.lsh.Valid()
      && config.target > 0 && config.overlap > 0
    }

    constructor (config: Segmenter.Config, parse: string -> Option<UUID>, dedup: ChunkDeduplicator, nlp: NLPPipeline<D>)
      requires config.target > 0 && config.overlap > 0
      requires dedup.Valid() && nlp.lsh.Valid()
      ensures Valid() && this.config == config && this.parse == parse && this.dedup == dedup && this.nlp == nlp
    {
      this.config, this.parse, this.repo, this.dedup, this.nlp := config, parse, dedup.repo, dedup, nlp;
    }

    function DocumentOf(event: Event, io: IO): UUID {
      match parse(event.documentId) case Some(id) => id case None => io.randomDoc
    }

    /** The lines the segmenter sees. */
    function LinesOf(io: IO): seq<ExtractedLine>
      requires io.stream.Some?
    {
      var lines := Extracted(io.stream.value, config.ops);
      Kept(lines, lines, config.ops)
    }

    predicate HasWork(event: Option<Event>) {
      event.Some? && event.value.documentId != ""
    }

    /** The object was fetched, and no scan error was seen. */
    predicate Readable(io: IO) {
      io.stream.Some? && io.scan != Broken(true)
    }

    ghost predicate IsRawOf(raw: seq<Chunk>, event: Event, io: IO)
      requires io.stream.Some?
    {
      IsRaw(config, dedup.canonical, DocumentOf(event, io), LinesOf(io), io.chunkIds, raw)
    }

    /** Where a call ends, stage by stage, and why: each stage is reached when all before it
        went well. */
    ghost predicate StopsAt(stop: Stop, event: Option<Event>, io: IO) {
      match stop
      case NoEvent => !HasWork(event)
      case NoObject => HasWork(event) && io.stream.None?
      case Unreadable => HasWork(event) && io.stream.Some? && io.scan == Broken(true)
      case NoChunks => HasWork(event) && Readable(io) && IsRawOf([], event.value, io)
      case NoAnswer(raw, _) => Segments(raw, event, io) && Stores(stop, io)
      case NoVectors(raw, _, _) => Segments(raw, event, io) && Stores(stop, io)
      case Reached(raw, _, _) => Segments(raw, event, io) && Stores(stop, io)
    }

    /** The call gets as far as a non-empty list of chunks. */
    ghost predicate Segments(raw: seq<Chunk>, event: Option<Event>, io: IO) {
      HasWork(event) && Readable(io) && raw != [] && IsRawOf(raw, event.value, io)
    }

    /** From the lookup on: the tiers' answer, the embeddings, and the run that reached the
        save. */
    ghost predicate Stores(stop: Stop, io: IO)
      requires Asked(stop)
    {
      var answer := Answer(stop.tiers, ChunkHashes(stop.raw), io.lookup);
      match stop
      case NoAnswer(_, _) => answer == None
      case NoVectors(raw, _, found) =>
        answer == Some(found) && !Vectorizer.EveryBatchSucceeds(ToEmbed(raw, found), io.api)
      case Reached(raw, tiers, r) => ReachedOf(raw, tiers, r, io) && IsRun(nlp.profile, r)
    }

    /** There is nothing to do: no event, no document id, or no chunk in what was read. */
    ghost predicate Nothing(event: Option<Event>, io: IO) {
      !HasWork(event) || (Readable(io) && IsRawOf([], event.value, io))
    }

    /** All stages before the save go well on these tiers. */
    ghost predicate Reaches(event: Option<Event>, io: IO, tiers: Tiers) {
      exists raw :: Segments(raw, event, io) && StagesSucceed(raw, io, tiers)
    }

    ghost predicate StagesSucceed(raw: seq<Chunk>, io: IO, tiers: Tiers) {
      var answer := Answer(tiers, ChunkHashes(raw), io.lookup);
      answer.Some? && Vectorizer.EveryBatchSucceeds(ToEmbed(raw, answer.value), io.api)
    }

    /** The event and what the call met decide whether it reaches the save, and whether there
        was nothing to do. */
    lemma ReachesExactly(stop: Stop, event: Option<Event>, io: IO)
      requires StopsAt(stop, event, io)
      ensures stop.NoEvent? <==> event.None? || event.value.documentId == ""
      ensures stop.NoObject? <==> event.Some? && event.value.documentId != "" && io.stream.None?
      ensures stop.Unreadable? <==>
                event.Some? && event.value.documentId != "" && io.stream.Some? && io.scan == Broken(true)
      ensures stop.Reached? <==> Reaches(event, io, TiersOf(stop))
      ensures stop.NoEvent? || stop.NoChunks? <==> Nothing(event, io)
    {
      if HasWork(event) && Readable(io) {
        if raw :| Segments(raw, event, io) && StagesSucceed(raw, io, TiersOf(stop)) {
          RawDetermined(event.value, io, raw, StoppedWith(stop));
        }
        if IsRawOf([], event.value, io) {
          RawDetermined(event.value, io, [], StoppedWith(stop));
        }
      }
    }

    lemma RawDetermined(event: Event, io: IO, a: seq<Chunk>, b: seq<Chunk>)
      requires io.stream.Some? && IsRawOf(a, event, io) && IsRawOf(b, event, io)
      ensures a == b
    {
      SameEventSameDocument(config, dedup.canonical, DocumentOf(event, io), LinesOf(io),
                            io.chunkIds, io.chunkIds, a, b);
    }

    /** When a call reports success, ids being fresh: exactly when there was nothing to do, or
        all stages went well, no round trip of the save failed, and the tables admit the run. */
    lemma SucceedsExactly(stop: Stop, event: Option<Event>, io: IO)
      requires StopsAt(stop, event, io) && IdsDiffer(io.chunkIds)
      requires stop.Reached? ==> Consistent(stop.run.atSave) && FreshIds(stop.run.atSave.vectors, stop.run.vectors)
      ensures stop.Reached? <==> Reaches(event, io, TiersOf(stop))
      ensures Succeeded(stop) <==>
                || Nothing(event, io)
                || (stop.Reached? && NoFault(io.faults, |stop.run.vectors|, |Final(stop.run)|) && Admissible(stop.run))
    {
      ReachesExactly(stop, event, io);
      if stop.Reached? {
        ReachedCommits(stop, event.value, io);
      }
    }

    lemma ReachedCommits(stop: Stop, event: Event, io: IO)
      requires stop.Reached? && io.stream.Some? && IsRawOf(stop.raw, event, io) && IdsDiffer(io.chunkIds)
      requires Stores(stop, io) && Consistent(stop.run.atSave) && FreshIds(stop.run.atSave.vectors, stop.run.vectors)
      ensures stop.run.committed <==>
                NoFault(io.faults, |stop.run.vectors|, |Final(stop.run)|) && Admissible(stop.run)
    {
      RawUnique(config, dedup.canonical, DocumentOf(event, io), LinesOf(io), io.chunkIds, stop.raw);
      CommitsExactly(nlp.profile, stop.run);
    }

    /** The two events name one document id, it parses, and the two calls read the same lines. */
    ghost predicate SameWork(event: Option<Event>, io: IO, later: Option<Event>, io1: IO) {
      && event.Some? && later.Some? && io.stream.Some? && io1.stream.Some?
      && parse(event.value.documentId).Some? && parse(later.value.documentId) == parse(event.value.documentId)
      && LinesOf(io) == LinesOf(io1)
    }

    /** What a call works on: chunks of the event's document, if its id parses, and of one with
        a random id otherwise, numbered from 0, hashed, without vectors; and their text is a
        segmentation of what header removal leaves of the complete extraction of the stream. */
    lemma RawExactly(stop: Stop, event: Option<Event>, io: IO) returns (sent: seq<ExtractedLine>, at: seq<Place>)
      requires StopsAt(stop, event, io) && Asked(stop)
      ensures event.Some? && io.stream.Some? && IsExtraction(sent, io.stream.value, config.ops, at)
      ensures PassesFor(stop, event.value, io, sent)
      ensures forall k: nat | k < |stop.raw| ::
                stop.raw[k].documentId
                == match parse(event.value.documentId) case Some(id) => id case None => io.randomDoc
      ensures forall k: nat | k < |stop.raw| ::
                && stop.raw[k].id == io.chunkIds(k) && stop.raw[k].index == k && stop.raw[k].vectorId == NIL
                && stop.raw[k].hash == dedup.canonical(stop.raw[k].content)
    {
      sent := Extracted(io.stream.value, config.ops);
      at := ExtractedExactly(io.stream.value, config.ops);
      forall k: nat | k < |stop.raw|
        ensures stop.raw[k].documentId == DocumentOf(event.value, io)
        ensures stop.raw[k].id == io.chunkIds(k) && stop.raw[k].index == k && stop.raw[k].vectorId == NIL
        ensures stop.raw[k].hash == dedup.canonical(stop.raw[k].content)
      {
        RawNumbered(config, dedup.canonical, DocumentOf(event.value, io), LinesOf(io), io.chunkIds, stop.raw, k);
      }
    }

    lemma SameWorkSameDocument(
      a: seq<Chunk>, b: seq<Chunk>, event: Option<Event>, io: IO, later: Option<Event>, io1: IO)
      requires SameWork(event, io, later, io1) && IsRawOf(a, event.value, io) && IsRawOf(b, later.value, io1)
      ensures SameDocument(a, b)
    {
      SameEventSameDocument(config, dedup.canonical, DocumentOf(event.value, io), LinesOf(io),
                            io.chunkIds, io1.chunkIds, a, b);
    }

    /** After a call that committed rows, a later call over the same document id and text whose
        lookup loses no row fails, whatever was paired with what. */
    lemma LaterCallFails(
      a: Stop, b: Stop, event: Option<Event>, io: IO, later: Option<Event>, io1: IO, batch: UUID -> set<string>)
      requires StopsAt(a, event, io) && StopsAt(b, later, io1) && SameWork(event, io, later, io1)
      requires a.Reached? && CommitsRows(a.run) && BatchedRun(a.run, batch)
      requires b.Reached? ==> Grows(After(a.run), b.run.before)
      requires later.value.documentId != "" && io1.lookup.rowsLost == {}
      ensures !Succeeded(b)
    {
      if b.Reached? {
        SameWorkSameDocument(a.raw, b.raw, event, io, later, io1);
        CommittedAnswersKnown(nlp.profile, a.run, batch);
        EffectOnce(nlp.profile, a.run, b.run);
      } else if b.NoChunks? {
        SameWorkSameDocument(a.raw, [], event, io, later, io1);
      }
    }

    /** A scan that breaks off before the end of the whole stream: an error that is seen stops
        the call, and one that is not seen in time changes nothing. A beginning of the document's
        lines then passes for the document, header removal judging recurrence by it alone. */
    lemma BrokenScan(stop: Stop, event: Option<Event>, io: IO, whole: seq<string>)
      requires io.scan.Broken? && io.stream.Some? && io.stream.value <= whole && HasWork(event)
      ensures io.scan.seen ==> (StopsAt(stop, event, io) <==> stop.Unreadable?)
      ensures !io.scan.seen ==> (StopsAt(stop, event, io) <==> StopsAt(stop, event, io.(scan := Complete)))
      ensures !io.scan.seen && StopsAt(stop, event, io) ==>
                exists sent :: sent <= Extracted(whole, config.ops) && PassesFor(stop, event.value, io, sent)
    {
      if !io.scan.seen {
        UnseenBreak(stop, event.value, io, io.(scan := Complete));
        assert whole[..|io.stream.value|] == io.stream.value;
        ExtractedPrefix(whole, |io.stream.value|, config.ops);
        var sent := Extracted(io.stream.value, config.ops);
        assert StopsAt(stop, event, io) ==> PassesFor(stop, event.value, io, sent);
      }
    }

    /** What the call had in hand when it stopped is a segmentation of these lines. */
    ghost predicate PassesFor(stop: Stop, event: Event, io: IO, sent: seq<ExtractedLine>) {
      IsRaw(config, dedup.canonical, DocumentOf(event, io), Kept(sent, sent, config.ops), io.chunkIds,
            StoppedWith(stop))
    }

    lemma UnseenBreak(stop: Stop, event: Event, io: IO, other: IO)
      requires other == io.(scan := Complete) && io.scan == Broken(false) && io.stream.Some?
      ensures StopsAt(stop, Some(event), io) <==> StopsAt(stop, Some(event), other)
    {
      assert LinesOf(io) == LinesOf(other) && DocumentOf(event, io) == DocumentOf(event, other);
      UnseenRaw(StoppedWith(stop), event, io, other);
      if Asked(stop) {
        UnseenStores(stop, io, other);
      }
    }

    lemma UnseenRaw(raw: seq<Chunk>, event: Event, io: IO, other: IO)
      requires other == io.(scan := Complete) && io.stream.Some?
      ensures IsRawOf(raw, event, io) <==> IsRawOf(raw, event, other)
    {
    }

    lemma UnseenStores(stop: Stop, io: IO, other: IO)
      requires other == io.(scan := Complete) && (Asked(stop))
      ensures Stores(stop, io) <==> Stores(stop, other)
    {
    }

    /** And such a commit lasts: a later delivery of the whole document, or of any other text
        under the same document id, fails as soon as both would save one position. */
    lemma FirstTextStays(a: Stop, b: Stop, eventA: Option<Event>, eventB: Option<Event>, ioA: IO, ioB: IO, k: nat)
      requires a.Reached? && b.Reached? && StopsAt(a, eventA, ioA) && StopsAt(b, eventB, ioB)
      requires parse(eventA.value.documentId).Some?
      requires parse(eventB.value.documentId) == parse(eventA.value.documentId)
      requires a.run.committed && Grows(After(a.run), b.run.atSave)
      requires Saves(nlp.profile, a.run, k) && Saves(nlp.profile, b.run, k)
      ensures !b.run.committed && !Succeeded(b)
    {
      RawNumbered(config, dedup.canonical, DocumentOf(eventA.value, ioA), LinesOf(ioA), ioA.chunkIds, a.raw, k);
      RawNumbered(config, dedup.canonical, DocumentOf(eventB.value, ioB), LinesOf(ioB), ioB.chunkIds, b.raw, k);
      NotBoth(nlp.profile, a.run, b.run, k);
    }

    /** The tables a call had before it: as old before its lookup, as now after its save. */
    ghost predicate InTime(stop: Stop, before: Database, after: Database)
    {
      && Grows(before, after)
      && (Asked(stop) ==>
            Submap(Table(before), stop.tiers.table) && Submap(stop.tiers.table, Table(after)))
      && (stop.Reached? ==> Grows(before, stop.run.before))
    }

    /** The segmenter ends on this text: at a budget of one token exact mode may not. */
    predicate Ends(io: IO) {
      io.stream.Some? ==> Segmenter.Ends(config, LinesOf(io))
    }

    /** Fetch, extraction, header removal and segmentation. The lines sent before a scan broke
        off are used like a whole document's, unless the error is seen in time. */
    method Prepare(event: Event, io: IO) returns (ok: bool, cs: seq<Chunk>)
      requires config.target > 0 && config.overlap > 0 && Ends(io)
      ensures ok <==> Readable(io)
      ensures ok ==>
                Segmenter.IsSegmentation(config, DocumentOf(event, io), LinesOf(io), cs) && IdsFrom(cs, io.chunkIds)
      ensures forall c | c in cs ::
                c.documentId == match parse(event.documentId) case Some(id) => id case None => io.randomDoc
    {
      cs := [];
      if io.stream.None? {
        return false, cs;
      }
      var extracted, err := ExtractFromReader(io.stream.value, config.ops, io.scan.Broken?);
      if err && io.scan.seen {
        return false, cs;
      }
      if extracted == [] {
        return true, cs;
      }
      var normalized := NormalizeLines(extracted, config.ops);
      cs := Segmenter.SegmentDocument(config, DocumentOf(event, io), normalized, io.chunkIds);
      SegmentLaws.SegmentationNumbered(config, DocumentOf(event, io), normalized, cs);
      ok := true;
    }

    /** The partition loop: known hashes on one side, chunks to embed on the other. */
    method Partition(raw: array<Chunk>, found: map<string, UUID>) returns (toEmbed: seq<Chunk>, final: seq<Chunk>)
      ensures toEmbed == ToEmbed(raw[..], found) && final == Duplicates(raw[..], found)
    {
      toEmbed, final := [], [];
      for i := 0 to raw.Length
        invariant toEmbed == ToEmbed(raw[..][..i], found) && final == Duplicates(raw[..][..i], found)
      {
        PartitionNext(raw[..], found, i);
        var chunk := raw[i];
        if chunk.hash in found {
          final := final + [chunk.(vectorId := found[chunk.hash])];
        } else {
          toEmbed := toEmbed + [chunk];
        }
      }
      assert raw[..][..raw.Length] == raw[..];
    }

    /** Enrichment and embedding run side by side; they share nothing but the chunks they
        read, so either may be over first. */
    method EnrichAndEmbed(toEmbed: seq<Chunk>, api: Vectorizer.Api)
      returns (enriched: seq<Chunk>, vectors: Option<seq<Vector>>)
      requires nlp.lsh.Valid()
      modifies nlp.lsh
      ensures nlp.lsh.Valid() && IsFiltered(nlp.profile, enriched, toEmbed)
      ensures vectors.Some? <==> Vectorizer.EveryBatchSucceeds(toEmbed, api)
      ensures vectors.Some? ==> Vectorizer.VectorsOfChunks(vectors.value, toEmbed, api)
    {
      if * {
        enriched := nlp.EnrichChunksParallel(toEmbed);
        vectors := Embed(toEmbed, api);
      } else {
        vectors := Embed(toEmbed, api);
        enriched := nlp.EnrichChunksParallel(toEmbed);
      }
    }

    method Embed(toEmbed: seq<Chunk>, api: Vectorizer.Api) returns (vectors: Option<seq<Vector>>)
      ensures vectors.Some? <==> Vectorizer.EveryBatchSucceeds(toEmbed, api)
      ensures vectors.Some? ==> Vectorizer.VectorsOfChunks(vectors.value, toEmbed, api)
    {
      if toEmbed == [] {
        return Some([]);
      }
      var outcome := Vectorizer.GenerateBatchEmbeddings(toEmbed, api);
      return if outcome.Err? then None else Some(outcome.vectors);
    }

    /** The pair has gone through the cache, and the index knows the text under the vector. */
    ghost predicate Announced(log: seq<Entry>, history: seq<MinHash.Indexed>, c: Chunk, id: UUID) {
      && Remembered(log, c.hash, id)
      && exists e :: e in history && e.id == id && nlp.IsTextSignature(e.sig, c.content)
    }

    ghost predicate AllAnnounced(
      log: seq<Entry>, history: seq<MinHash.Indexed>, cs: seq<Chunk>, vectors: seq<Vector>, n: nat)
    {
      forall j | 0 <= j < n && j < |cs| && j < |vectors| :: Announced(log, history, cs[j], vectors[j].id)
    }

    /** Every kept chunk of the run was announced under its vector. */
    ghost predicate RunAnnounced(r: Run)
      reads dedup, nlp.lsh
    {
      AllAnnounced(dedup.log, nlp.lsh.history, r.enriched, r.vectors, |r.enriched|)
    }

    lemma AnnouncedStays(
      log: seq<Entry>, history: seq<MinHash.Indexed>, log1: seq<Entry>, history1: seq<MinHash.Indexed>,
      cs: seq<Chunk>, vectors: seq<Vector>, n: nat)
      requires AllAnnounced(log, history, cs, vectors, n) && log <= log1 && history <= history1
      ensures AllAnnounced(log1, history1, cs, vectors, n)
    {
      forall j | 0 <= j < n && j < |cs| && j < |vectors| ensures Announced(log1, history1, cs[j], vectors[j].id) {
        assert Announced(log, history, cs[j], vectors[j].id);
      }
    }

    /** The pair goes into the caches and the text into the near-duplicate index. */
    method Register(c: Chunk, id: UUID, stored: bool, ghost w: World)
      requires Valid()
      modifies dedup, repo, dedup.redis, nlp.lsh
      ensures Valid() && Grows(old(repo.db), repo.db)
      ensures old(dedup.log) <= dedup.log && old(nlp.lsh.history) <= nlp.lsh.history
      ensures old(dedup.redis.past) <= dedup.redis.past
      ensures Announced(dedup.log, nlp.lsh.history, c, id)
      ensures old(dedup.Sound(w)) && w.owner(id) == c.hash ==> dedup.Sound(WithPending(w, iset{Entry(c.hash, id)}))
      ensures old(dedup.Accounted(w.batch)) && c.hash in w.batch(id) ==> dedup.Accounted(w.batch)
    {
      dedup.OtherWorkers(w);
      dedup.RegisterVectorHash(c.hash, id, stored, w);
      nlp.OtherWorkers();
      nlp.RegisterChunkVector(c.content, id);
    }

    /** Pairs and registers chunk i of the list. */
    method PairNth(chunk: Chunk, i: nat, stored: bool, ghost enriched: seq<Chunk>, vectors: seq<Vector>, ghost w: World)
      returns (paired: Chunk)
      requires Valid() && i < |enriched| && chunk == enriched[i]
      requires AllAnnounced(dedup.log, nlp.lsh.history, enriched, vectors, i)
      modifies dedup, repo, dedup.redis, nlp.lsh
      ensures Valid() && Grows(old(repo.db), repo.db) && old(dedup.log) <= dedup.log
      ensures old(dedup.redis.past) <= dedup.redis.past
      ensures paired == PairedAt(chunk, vectors, i)
      ensures AllAnnounced(dedup.log, nlp.lsh.history, enriched, vectors, i + 1)
      ensures old(dedup.Sound(WithPending(w, RegisteredUpTo(enriched, vectors, i)))) ==>
                (i < |vectors| ==> w.owner(vectors[i].id) == chunk.hash) ==>
                dedup.Sound(WithPending(w, RegisteredUpTo(enriched, vectors, i + 1)))
      ensures old(dedup.Accounted(w.batch)) ==>
                (i < |vectors| ==> chunk.hash in w.batch(vectors[i].id)) ==> dedup.Accounted(w.batch)
    {
      paired := chunk;
      RegisteredStep(enriched, vectors, w, i);
      if i < |vectors| {
        paired := paired.(vectorId := vectors[i].id);
        ghost var log, history := dedup.log, nlp.lsh.history;
        Register(paired, vectors[i].id, stored, WithPending(w, RegisteredUpTo(enriched, vectors, i)));
        AnnouncedStays(log, history, dedup.log, nlp.lsh.history, enriched, vectors, i);
        assert Announced(dedup.log, nlp.lsh.history, enriched[i], vectors[i].id);
      }
    }

    /** The pairing loop: kept chunk i takes vector i, whatever vector enrichment gave it,
        and the pair goes into the caches and the near-duplicate index before the save. */
    method PairAndRegister(enriched0: seq<Chunk>, vectors: seq<Vector>, duplicates: seq<Chunk>, io: IO, ghost w: World)
      returns (final: seq<Chunk>)
      requires Valid()
      modifies dedup, repo, dedup.redis, nlp.lsh
      ensures Valid() && Grows(old(repo.db), repo.db) && old(dedup.log) <= dedup.log
      ensures old(dedup.redis.past) <= dedup.redis.past
      ensures final == duplicates + Paired(enriched0, vectors)
      ensures AllAnnounced(dedup.log, nlp.lsh.history, enriched0, vectors, |enriched0|)
      ensures old(dedup.Sound(w)) && HashCorrect(enriched0, vectors) && VectorsOwned(vectors, w.owner) ==>
                dedup.Sound(WithPending(w, RegisteredUpTo(enriched0, vectors, |enriched0|)))
      ensures old(dedup.Accounted(w.batch)) && KeptInBatch(enriched0, vectors, w.batch) ==> dedup.Accounted(w.batch)
    {
      var enriched := enriched0;
      final := duplicates;
      NoneRegistered(enriched0, vectors, w);
      ghost var sound := dedup.Sound(w) && HashCorrect(enriched0, vectors) && VectorsOwned(vectors, w.owner);
      ghost var accounted := dedup.Accounted(w.batch) && KeptInBatch(enriched0, vectors, w.batch);
      for i := 0 to |enriched0|
        invariant Valid() && Grows(old(repo.db), repo.db) && old(dedup.log) <= dedup.log
        invariant old(dedup.redis.past) <= dedup.redis.past
        invariant |enriched| == |enriched0| && enriched[i..] == enriched0[i..]
        invariant final == duplicates + Paired(enriched0, vectors)[..i]
        invariant AllAnnounced(dedup.log, nlp.lsh.history, enriched0, vectors, i)
        invariant sound ==> dedup.Sound(WithPending(w, RegisteredUpTo(enriched0, vectors, i)))
        invariant accounted ==> dedup.Accounted(w.batch)
      {
        PairedNext(enriched0, enriched, vectors, duplicates, final, i);
        RightPair(enriched0, vectors, w, i);
        var paired := PairNth(enriched[i], i, io.stored(i), enriched0, vectors, w);
        enriched := enriched[i := paired];
        final := final + [enriched[i]];
      }
      assert Paired(enriched0, vectors)[..|enriched0|] == Paired(enriched0, vectors);
    }

    /** From segmented chunks to the tables; stop says how far the call got. */
    method Store(segmented: seq<Chunk>, io: IO, ghost w: World) returns (ok: bool, ghost stop: Stop)
      requires Valid() && IdsDiffer(io.api.newId) && segmented != []
      modifies dedup, repo, dedup.redis, nlp.lsh
      ensures Valid() && InTime(stop, old(repo.db), repo.db)
      ensures Asked(stop)
      ensures stop.raw == Hashed(segmented, dedup.canonical) && Stores(stop, io) && ok == Succeeded(stop)
      ensures stop.Reached? ==> repo.db == After(stop.run) && RunAnnounced(stop.run)
      ensures WasMemory(stop.tiers.memory, dedup.log, |old(dedup.log)|, dedup.capacity)
      ensures WasHeld(stop.tiers.redis, dedup.redis.past, |old(dedup.redis.past)|)
      ensures old(dedup.Sound(w)) ==> TiersSound(stop.tiers, w)
      ensures old(dedup.Sound(w)) && HarmlessStop(stop, w) ==> dedup.Sound(w) && SoundStop(stop, w)
      ensures old(dedup.Accounted(w.batch)) && OwnStop(stop, w.batch) ==>
                dedup.Accounted(w.batch) && BatchedStop(stop, w.batch)
    {
      dedup.OtherWorkers(w);
      ghost var atStart := |dedup.redis.past|;
      ghost var raw, before := Hashed(segmented, dedup.canonical), repo.db;
      ghost var memory, order, log := dedup.cache, dedup.cacheOrder, dedup.log;
      var found, toEmbed, duplicates;
      ghost var tiers;
      ok, found, toEmbed, duplicates, tiers := Lookup(segmented, io, w);
      ghost var past := dedup.redis.past;
      if ok {
        ok, stop := StoreAnswered(raw, tiers, before, found, toEmbed, duplicates, io, w);
      } else {
        stop := NoAnswer(raw, tiers);
      }
      RememberMemory(memory, order, log, dedup.log, |old(dedup.log)|, dedup.capacity);
      HeldStays(tiers.redis, past, dedup.redis.past, atStart, |old(dedup.redis.past)|);
    }

    /** What follows a lookup that answered. */
    method StoreAnswered(ghost raw: seq<Chunk>, ghost tiers: Tiers, ghost before: Database, found: map<string, UUID>,
                         toEmbed: seq<Chunk>, duplicates: seq<Chunk>, io: IO, ghost w: World)
      returns (ok: bool, ghost stop: Stop)
      requires Valid() && IdsDiffer(io.api.newId) && raw != []
      requires Answer(tiers, ChunkHashes(raw), io.lookup) == Some(found) && Submap(Table(before), tiers.table)
      requires toEmbed == ToEmbed(raw, found) && duplicates == Duplicates(raw, found) && Grows(before, repo.db)
      modifies dedup, repo, dedup.redis, nlp.lsh
      ensures Valid() && Grows(old(repo.db), repo.db) && old(dedup.log) <= dedup.log
      ensures old(dedup.redis.past) <= dedup.redis.past
      ensures stop.NoVectors? || (stop.Reached? && stop.run.before == before)
      ensures stop.raw == raw && stop.tiers == tiers && Stores(stop, io) && ok == Succeeded(stop)
      ensures stop.Reached? ==> repo.db == After(stop.run) && RunAnnounced(stop.run)
      ensures old(dedup.Sound(w)) && Within(found, Table(old(repo.db)), w) && HarmlessStop(stop, w) ==>
                dedup.Sound(w) && SoundStop(stop, w)
      ensures old(dedup.Accounted(w.batch)) && Batched(found, Table(old(repo.db)), w.batch) ==>
                OwnStop(stop, w.batch) ==> dedup.Accounted(w.batch) && BatchedStop(stop, w.batch)
    {
      var enriched, vectors := EmbedMeanwhile(toEmbed, found, io.api, w);
      if vectors.None? {
        ok, stop := false, NoVectors(raw, tiers, found);
        NoVectorsStores(raw, tiers, found, io);
      } else {
        ghost var r := Run(raw, tiers.memory, before, io.lookup.rowsLost, found,
                           vectors.value, enriched, before, io.faults, false);
        ok, stop := StoreRun(r, tiers, enriched, vectors.value, duplicates, io, w);
      }
    }

    method StoreRun(ghost r0: Run, ghost tiers: Tiers, enriched: seq<Chunk>, vectors: seq<Vector>,
                    duplicates: seq<Chunk>, io: IO, ghost w: World)
      returns (ok: bool, ghost stop: Stop)
      requires Valid() && IdsDiffer(io.api.newId) && r0.raw != []
      requires ReachedOf(r0.raw, tiers, r0, io) && IsFiltered(nlp.profile, r0.enriched, ToEmbed(r0.raw, r0.found))
      requires enriched == r0.enriched && vectors == r0.vectors && duplicates == Duplicates(r0.raw, r0.found)
      requires Submap(Table(r0.before), tiers.table) && Grows(r0.before, repo.db)
      modifies dedup, repo, dedup.redis, nlp.lsh
      ensures Valid() && Grows(old(repo.db), repo.db) && old(dedup.log) <= dedup.log
      ensures old(dedup.redis.past) <= dedup.redis.past
      ensures stop.Reached? && stop.run.before == r0.before && stop.raw == r0.raw && stop.tiers == tiers
      ensures Stores(stop, io) && ok == Succeeded(stop)
      ensures repo.db == After(stop.run) && RunAnnounced(stop.run)
      ensures old(dedup.Sound(w)) && Within(r0.found, Table(old(repo.db)), w) && HarmlessStop(stop, w) ==>
                dedup.Sound(w) && SoundStop(stop, w)
      ensures old(dedup.Accounted(w.batch)) && Batched(r0.found, Table(old(repo.db)), w.batch) ==>
                OwnStop(stop, w.batch) ==> dedup.Accounted(w.batch) && BatchedStop(stop, w.batch)
    {
      Prepared(r0, tiers, io);
      ghost var r;
      ok, r := PairAndSave(r0, enriched, vectors, duplicates, io, w);
      stop := Reached(r.raw, tiers, r);
      ReachedStores(stop, io);
    }

    lemma ReachedStores(stop: Stop, io: IO)
      requires stop.Reached? && ReachedOf(stop.raw, stop.tiers, stop.run, io) && IsRun(nlp.profile, stop.run)
      ensures Stores(stop, io)
    {
    }

    lemma NoVectorsStores(raw: seq<Chunk>, tiers: Tiers, found: map<string, UUID>, io: IO)
      requires Answer(tiers, ChunkHashes(raw), io.lookup) == Some(found)
      requires !Vectorizer.EveryBatchSucceeds(ToEmbed(raw, found), io.api)
      ensures Stores(NoVectors(raw, tiers, found), io) && !Succeeded(NoVectors(raw, tiers, found))
    {
    }

    /** What is settled before the save. */
    ghost predicate ReachedOf(raw: seq<Chunk>, tiers: Tiers, r: Run, io: IO) {
      && Answer(tiers, ChunkHashes(raw), io.lookup) == Some(r.found)
      && Vectorizer.EveryBatchSucceeds(ToEmbed(raw, r.found), io.api)
      && r.raw == raw && r.memory == tiers.memory
      && Vectorizer.VectorsOfChunks(r.vectors, ToEmbed(raw, r.found), io.api)
      && r.lost == io.lookup.rowsLost && r.faults == io.faults
    }

    /** Enrichment and embedding, and what others do until both are over. */
    method EmbedMeanwhile(toEmbed: seq<Chunk>, ghost found: map<string, UUID>, api: Vectorizer.Api, ghost w: World)
      returns (enriched: seq<Chunk>, vectors: Option<seq<Vector>>)
      requires Valid()
      modifies dedup, repo, dedup.redis, nlp.lsh
      ensures Valid() && Grows(old(repo.db), repo.db) && old(dedup.log) <= dedup.log
      ensures old(dedup.redis.past) <= dedup.redis.past
      ensures IsFiltered(nlp.profile, enriched, toEmbed)
      ensures vectors.Some? <==> Vectorizer.EveryBatchSucceeds(toEmbed, api)
      ensures vectors.Some? ==> Vectorizer.VectorsOfChunks(vectors.value, toEmbed, api)
      ensures old(dedup.Sound(w)) ==> dedup.Sound(w)
      ensures Within(found, Table(old(repo.db)), w) ==> Within(found, Table(repo.db), w)
      ensures old(dedup.Accounted(w.batch)) ==> dedup.Accounted(w.batch)
      ensures Batched(found, Table(old(repo.db)), w.batch) ==> Batched(found, Table(repo.db), w.batch)
    {
      enriched, vectors := EnrichAndEmbed(toEmbed, api);
      ghost var rows := Table(repo.db);
      dedup.OtherWorkers(w);
      WithinLater(found, rows, Table(repo.db), w);
    }

    /** What the lookup, the enrichment and the embedding promise makes a prepared run. */
    lemma Prepared(r: Run, tiers: Tiers, io: IO)
      requires r.raw != [] && Answer(tiers, ChunkHashes(r.raw), io.lookup) == Some(r.found)
      requires Submap(Table(r.before), tiers.table) && r.memory == tiers.memory && r.lost == io.lookup.rowsLost
      requires Vectorizer.VectorsOfChunks(r.vectors, ToEmbed(r.raw, r.found), io.api) && IdsDiffer(io.api.newId)
      requires IsFiltered(nlp.profile, r.enriched, ToEmbed(r.raw, r.found))
      ensures IsPrepared(nlp.profile, r)
    {
      AnswerCovers(tiers, ChunkHashes(r.raw), io.lookup, Table(r.before));
      VectorsFit(r.vectors, ToEmbed(r.raw, r.found), io.api);
    }

    /** The pairing loop and the save, which completes the run record. */
    method PairAndSave(ghost r0: Run, enriched: seq<Chunk>, vectors: seq<Vector>, duplicates: seq<Chunk>, io: IO,
                       ghost w: World)
      returns (ok: bool, ghost r: Run)
      requires Valid() && enriched == r0.enriched && vectors == r0.vectors && io.faults == r0.faults
      requires duplicates == Duplicates(r0.raw, r0.found) && Grows(r0.before, repo.db)
      requires IsPrepared(nlp.profile, r0)
      modifies dedup, repo, dedup.redis, nlp.lsh
      ensures Valid() && Grows(old(repo.db), repo.db) && old(dedup.log) <= dedup.log
      ensures old(dedup.redis.past) <= dedup.redis.past
      ensures r == r0.(atSave := r.atSave, committed := ok) && IsRun(nlp.profile, r)
      ensures repo.db == After(r) && Grows(old(repo.db), r.atSave)
      ensures RunAnnounced(r)
      ensures old(dedup.Sound(w)) && Within(r.found, Table(old(repo.db)), w) && Harmless(r, w) ==>
                dedup.Sound(w) && SoundRun(r, w) && DatabaseSound(r.atSave, w)
      ensures old(dedup.Accounted(w.batch)) && Batched(r.found, Table(old(repo.db)), w.batch) ==>
                OwnBatch(r.vectors, w.batch) ==> dedup.Accounted(w.batch) && BatchedRun(r, w.batch)
    {
      var final := PairAndRegister(enriched, vectors, duplicates, io, w);
      ghost var log, history, db0 := dedup.log, nlp.lsh.history, repo.db;
      dedup.OtherWorkers(WithPending(w, Registered(r0)));
      AnnouncedStays(log, history, dedup.log, history, enriched, vectors, |enriched|);
      WithinLater(r0.found, Table(old(repo.db)), Table(repo.db), w);
      BatchedLater(r0.found, Table(old(repo.db)), Table(repo.db), w.batch);
      PairingWithin(r0, w.batch);
      ok, r := SaveAndSettle(r0, vectors, final, io.faults, w);
    }

    lemma PairingWithin(r: Run, batch: UUID -> set<string>)
      requires IsPrepared(nlp.profile, r)
      ensures OwnBatch(r.vectors, batch) ==> KeptInBatch(r.enriched, r.vectors, batch)
    {
      if OwnBatch(r.vectors, batch) {
        PairingInBatch(nlp.profile, ToEmbed(r.raw, r.found), r.vectors, r.enriched, batch);
      }
    }

    /** The save, and what becomes of the caches by it. */
    method SaveAndSettle(ghost r0: Run, vectors: seq<Vector>, final: seq<Chunk>, faults: SaveFaults, ghost w: World)
      returns (ok: bool, ghost r: Run)
      requires Valid() && IsPrepared(nlp.profile, r0)
      requires vectors == r0.vectors && final == Final(r0) && faults == r0.faults && Grows(r0.before, repo.db)
      modifies repo
      ensures Valid() && r == r0.(atSave := old(repo.db), committed := ok)
      ensures IsRun(nlp.profile, r) && repo.db == After(r) && Grows(r.atSave, repo.db)
      ensures old(dedup.Sound(WithPending(w, Registered(r0)))) && PendingOwned(w) ==>
                Within(r.found, Table(r.atSave), w) && Harmless(r, w) ==>
                dedup.Sound(w) && SoundRun(r, w) && DatabaseSound(r.atSave, w)
      ensures old(dedup.Accounted(w.batch)) && Batched(r.found, Table(r.atSave), w.batch) ==>
                OwnBatch(r.vectors, w.batch) ==> dedup.Accounted(w.batch) && BatchedRun(r, w.batch)
    {
      ok, r := Save(r0, vectors, final, faults);
      if old(dedup.Sound(WithPending(w, Registered(r0)))) && PendingOwned(w) {
        if Within(r.found, Table(r.atSave), w) && Harmless(r, w) {
          HarmlessEnd(nlp.profile, r, w, dedup.cache);
          HarmlessEnd(nlp.profile, r, w, dedup.redis.entries);
        }
      }
      if old(dedup.Accounted(w.batch)) && Batched(r.found, Table(r.atSave), w.batch) && OwnBatch(r.vectors, w.batch) {
        BatchedEnd(nlp.profile, r, w.batch, dedup.cache);
        BatchedEnd(nlp.profile, r, w.batch, dedup.redis.entries);
      }
    }

    method Save(ghost r0: Run, vectors: seq<Vector>, final: seq<Chunk>, faults: SaveFaults)
      returns (ok: bool, ghost r: Run)
      requires IsPrepared(nlp.profile, r0) && vectors == r0.vectors && final == Final(r0) && faults == r0.faults
      requires Grows(r0.before, repo.db)
      modifies repo
      ensures r == r0.(atSave := old(repo.db), committed := ok)
      ensures IsRun(nlp.profile, r) && repo.db == After(r) && Grows(r.atSave, repo.db)
    {
      r := r0.(atSave := repo.db);
      SomethingToSave(nlp.profile, r);
      ok := repo.SaveBulk(vectors, final, faults);
      r := r.(committed := ok);
      SaveGrows(r.atSave, vectors, final);
    }

    /** The lookup and the partition. */
    method Lookup(segmented: seq<Chunk>, io: IO, ghost w: World)
      returns (ok: bool, found: map<string, UUID>, toEmbed: seq<Chunk>, duplicates: seq<Chunk>, ghost tiers: Tiers)
      requires Valid()
      modifies dedup, repo, dedup.redis
      ensures Valid() && Grows(old(repo.db), repo.db) && old(dedup.log) <= dedup.log
      ensures old(dedup.redis.past) <= dedup.redis.past
      ensures old(dedup.Sound(w)) ==> dedup.Sound(w) && TiersSound(tiers, w)
      ensures tiers.memory == old(dedup.cache)
      ensures WasHeld(tiers.redis, dedup.redis.past, |old(dedup.redis.past)|)
      ensures Submap(Table(old(repo.db)), tiers.table) && Submap(tiers.table, Table(repo.db))
      ensures var raw := Hashed(segmented, dedup.canonical);
              && Answer(tiers, ChunkHashes(raw), io.lookup) == (if ok then Some(found) else None)
              && (ok ==> toEmbed == ToEmbed(raw, found) && duplicates == Duplicates(raw, found))
      ensures ok && old(dedup.Sound(w)) ==> Within(found, Table(repo.db), w)
      ensures old(dedup.Accounted(w.batch)) ==> dedup.Accounted(w.batch)
      ensures ok && old(dedup.Accounted(w.batch)) ==> Batched(found, Table(repo.db), w.batch)
    {
      found, toEmbed, duplicates := map[], [], [];
      var raw := new Chunk[|segmented|](i requires 0 <= i < |segmented| => segmented[i]);
      var answers;
      answers, tiers := dedup.DeduplicateChunkBatch(raw, io.lookup, w);
      assert raw[..] == Hashed(segmented, dedup.canonical);
      ok := answers.Some?;
      if ok {
        found := answers.value;
        toEmbed, duplicates := Partition(raw, found);
      }
    }

    /** ProcessDocument. stop says where the call ended and why; the tables and the caches
        follow from it. */
    method ProcessDocument(event: Option<Event>, io: IO, ghost w: World) returns (ok: bool, ghost stop: Stop)
      requires Valid() && IdsDiffer(io.api.newId) && Ends(io)
      modifies dedup, repo, dedup.redis, nlp.lsh
      ensures Valid() && InTime(stop, old(repo.db), repo.db)
      ensures StopsAt(stop, event, io) && ok == Succeeded(stop)
      ensures stop.Reached? ==> repo.db == After(stop.run) && RunAnnounced(stop.run)
      ensures Asked(stop) ==>
                && WasMemory(stop.tiers.memory, dedup.log, |old(dedup.log)|, dedup.capacity)
                && WasHeld(stop.tiers.redis, dedup.redis.past, |old(dedup.redis.past)|)
      ensures old(dedup.Sound(w)) ==> TiersSound(TiersOf(stop), w)
      ensures old(dedup.Sound(w)) && HarmlessStop(stop, w) ==> dedup.Sound(w) && SoundStop(stop, w)
      ensures old(dedup.Accounted(w.batch)) && OwnStop(stop, w.batch) ==>
                dedup.Accounted(w.batch) && BatchedStop(stop, w.batch)
    {
      if event.None? || event.value.documentId == "" {
        return true, NoEvent;
      }
      var segmented;
      ok, segmented := Prepare(event.value, io);
      if !ok {
        return false, if io.stream.None? then NoObject else Unreadable;
      }
      assert IsRawOf(Hashed(segmented, dedup.canonical), event.value, io);
      if segmented == [] {
        return true, NoChunks;
      }
      ok, stop := Store(segmented, io, w);
    }

    /** A worker's life: one event after another, others at work in between. */
    method HandleEvents(events: seq<Option<Event>>, ios: seq<IO>, ghost w: World)
      returns (oks: seq<bool>, ghost stops: seq<Stop>)
      requires Valid() && |events| == |ios|
      requires forall i | 0 <= i < |ios| :: IdsDiffer(ios[i].api.newId) && Ends(ios[i])
      modifies dedup, repo, dedup.redis, nlp.lsh
      ensures Valid() && Grows(old(repo.db), repo.db)
      ensures |stops| == |events| && Reports(oks, stops)
      ensures History(stops, events, ios, repo.db)
      ensures old(dedup.Sound(w)) && AllHarmless(stops, w) ==> dedup.Sound(w) && AllSound(stops, w)
      ensures old(dedup.Accounted(w.batch)) && AllOwn(stops, w.batch) ==>
                dedup.Accounted(w.batch) && AllBatched(stops, w.batch)
    {
      oks, stops := [], [];
      ghost var sound, accounted := dedup.Sound(w), dedup.Accounted(w.batch);
      for n := 0 to |events|
        invariant Valid() && Grows(old(repo.db), repo.db)
        invariant |stops| == n && Reports(oks, stops)
        invariant History(stops, events, ios, repo.db)
        invariant sound && AllHarmless(stops, w) ==> dedup.Sound(w) && AllSound(stops, w)
        invariant accounted && AllOwn(stops, w.batch) ==> dedup.Accounted(w.batch) && AllBatched(stops, w.batch)
      {
        ghost var db := repo.db;
        var ok;
        ghost var stop;
        ok, stop := HandleNext(events[n], ios[n], w);
        HistoryNext(stops, stop, events, ios, db, repo.db);
        ReportsNext(oks, stops, ok, stop);
        NextHarmless(stops, stop, w);
        NextOwn(stops, stop, w.batch);
        oks, stops := oks + [ok], stops + [stop];
      }
    }

    /** The next event, after others had their turn. */
    method HandleNext(event: Option<Event>, io: IO, ghost w: World) returns (ok: bool, ghost stop: Stop)
      requires Valid() && IdsDiffer(io.api.newId) && Ends(io)
      modifies dedup, repo, dedup.redis, nlp.lsh
      ensures Valid() && InTime(stop, old(repo.db), repo.db)
      ensures StopsAt(stop, event, io) && ok == Succeeded(stop)
      ensures stop.Reached? ==> repo.db == After(stop.run)
      ensures old(dedup.Sound(w)) && HarmlessStop(stop, w) ==> dedup.Sound(w) && SoundStop(stop, w)
      ensures old(dedup.Accounted(w.batch)) && OwnStop(stop, w.batch) ==>
                dedup.Accounted(w.batch) && BatchedStop(stop, w.batch)
    {
      dedup.OtherWorkers(w);
      ok, stop := ProcessDocument(event, io, w);
    }

    /** The calls on the first events: each ended where it had to, and each run that reached
        its save found what the runs before it had left, as do those that come after db. */
    ghost predicate History(stops: seq<Stop>, events: seq<Option<Event>>, ios: seq<IO>, db: Database) {
      && |stops| <= |events| == |ios|
      && (forall i | 0 <= i < |stops| :: StopsAt(stops[i], events[i], ios[i]))
      && InOrderOf(stops) && AllOver(stops, db)
    }

    lemma HistoryGrows(
      stops: seq<Stop>, events: seq<Option<Event>>, ios: seq<IO>, db: Database, more: Database)
      requires History(stops, events, ios, db) && Grows(db, more)
      ensures History(stops, events, ios, more)
    {
    }

    lemma HistoryNext(
      stops: seq<Stop>, stop: Stop, events: seq<Option<Event>>, ios: seq<IO>, db: Database, more: Database)
      requires History(stops, events, ios, db) && |stops| < |events|
      requires StopsAt(stop, events[|stops|], ios[|stops|])
      requires InTime(stop, db, more) && (stop.Reached? ==> more == After(stop.run))
      ensures History(stops + [stop], events, ios, more)
    {
      NextStopsAt(stops, stop, events, ios);
      HistoryGrows(stops, events, ios, db, more);
      NextInOrder(stops, stop, db, more);
    }

    lemma NextStopsAt(stops: seq<Stop>, stop: Stop, events: seq<Option<Event>>, ios: seq<IO>)
      requires |stops| < |events| == |ios| && StopsAt(stop, events[|stops|], ios[|stops|])
      requires forall i | 0 <= i < |stops| :: StopsAt(stops[i], events[i], ios[i])
      ensures forall i | 0 <= i < |stops + [stop]| :: StopsAt((stops + [stop])[i], events[i], ios[i])
    {
      var all := stops + [stop];
      forall i | 0 <= i < |all| ensures StopsAt(all[i], events[i], ios[i]) {
        if i < |stops| {
          assert all[i] == stops[i];
        } else {
          assert all[i] == stop && i == |stops|;
        }
      }
    }
  }

  /** The run reached its save, and db has grown out of what it left. */
  ghost predicate Over(stop: Stop, db: Database) {
    stop.Reached? ==> DistinctIds(stop.run.vectors) && Grows(After(stop.run), db)
  }

  ghost predicate AllOver(stops: seq<Stop>, db: Database) {
    forall i | 0 <= i < |stops| :: Over(stops[i], db)
  }

  /** Each run started on tables that had grown out of what the earlier ones left. */
  ghost predicate InOrderOf(stops: seq<Stop>) {
    forall i, j | 0 <= i < j < |stops| && stops[j].Reached? :: Over(stops[i], stops[j].run.before)
  }

  lemma NextInOrder(stops: seq<Stop>, stop: Stop, db: Database, more: Database)
    requires InOrderOf(stops) && AllOver(stops, db) && AllOver(stops, more)
    requires stop.Reached? ==> DistinctIds(stop.run.vectors) && Grows(db, stop.run.before) && more == After(stop.run)
    ensures InOrderOf(stops + [stop]) && AllOver(stops + [stop], more)
  {
    var all := stops + [stop];
    forall i | 0 <= i < |all| ensures Over(all[i], more) {
      assert i < |stops| ==> all[i] == stops[i];
    }
    forall i, j | 0 <= i < j < |all| && all[j].Reached? ensures Over(all[i], all[j].run.before) {
      assert all[i] == stops[i] && Over(stops[i], db);
      assert j < |stops| ==> all[j] == stops[j];
    }
  }

  ghost predicate HarmlessStop(stop: Stop, w: World) {
    stop.Reached? ==> DistinctIds(stop.run.vectors) && Harmless(stop.run, w)
  }

  ghost predicate SoundStop(stop: Stop, w: World) {
    stop.Reached? ==> SoundRun(stop.run, w) && DatabaseSound(stop.run.atSave, w)
  }

  ghost predicate OwnStop(stop: Stop, batch: UUID -> set<string>) {
    stop.Reached? ==> OwnBatch(stop.run.vectors, batch)
  }

  ghost predicate BatchedStop(stop: Stop, batch: UUID -> set<string>) {
    stop.Reached? ==> BatchedRun(stop.run, batch)
  }

  /** The ids of every run are its own: batch names the call they were generated in. */
  ghost predicate AllOwn(stops: seq<Stop>, batch: UUID -> set<string>) {
    forall i | 0 <= i < |stops| :: OwnStop(stops[i], batch)
  }

  ghost predicate AllBatched(stops: seq<Stop>, batch: UUID -> set<string>) {
    forall i | 0 <= i < |stops| :: BatchedStop(stops[i], batch)
  }

  lemma NextOwn(stops: seq<Stop>, stop: Stop, batch: UUID -> set<string>)
    ensures AllOwn(stops + [stop], batch) ==> AllOwn(stops, batch) && OwnStop(stop, batch)
    ensures AllBatched(stops, batch) && BatchedStop(stop, batch) ==> AllBatched(stops + [stop], batch)
  {
    var all := stops + [stop];
    if AllOwn(all, batch) {
      forall i | 0 <= i < |stops| ensures OwnStop(stops[i], batch) {
        assert all[i] == stops[i];
      }
      assert all[|stops|] == stop;
    }
  }

  ghost predicate AllHarmless(stops: seq<Stop>, w: World) {
    forall i | 0 <= i < |stops| :: HarmlessStop(stops[i], w)
  }

  ghost predicate AllSound(stops: seq<Stop>, w: World) {
    forall i | 0 <= i < |stops| :: SoundStop(stops[i], w)
  }

  lemma NextHarmless(stops: seq<Stop>, stop: Stop, w: World)
    ensures AllHarmless(stops + [stop], w) ==> AllHarmless(stops, w) && HarmlessStop(stop, w)
    ensures AllSound(stops, w) && SoundStop(stop, w) ==> AllSound(stops + [stop], w)
  {
    var all := stops + [stop];
    if AllHarmless(all, w) {
      forall i | 0 <= i < |stops| ensures HarmlessStop(stops[i], w) {
        assert all[i] == stops[i];
      }
      assert all[|stops|] == stop;
    }
  }

  lemma WithinLater(m: map<string, UUID>, before: map<string, UUID>, after: map<string, UUID>, w: World)
    requires Submap(before, after)
    ensures Within(m, before, w) ==> Within(m, after, w)
  {
  }

  lemma BatchedLater(m: map<string, UUID>, before: map<string, UUID>, after: map<string, UUID>,
                     batch: UUID -> set<string>)
    requires Submap(before, after)
    ensures Batched(m, before, batch) ==> Batched(m, after, batch)
  {
  }

  /** The embedder's vectors carry the chunks' hashes and differ in id. */
  lemma VectorsFit(vs: seq<Vector>, cs: seq<Chunk>, api: Vectorizer.Api)
    requires Vectorizer.VectorsOfChunks(vs, cs, api) && IdsDiffer(api.newId)
    ensures EmbeddingsOf(vs, cs) && DistinctIds(vs)
  {
    forall i: nat | i < |vs| ensures vs[i].hash == cs[i].hash && vs[i].id == api.newId(i) {
      assert Vectorizer.VectorOfChunk(vs[i], cs, api, i);
    }
  }

  /** The caches at the end of a harmless run, given that they were within the table and
      what the run had registered when it saved. */
  lemma HarmlessEnd(p: Profile, r: Run, w: World, m: map<string, UUID>)
    requires IsRun(p, r) && Harmless(r, w) && Within(r.found, Table(r.atSave), w)
    requires DatabaseSound(r.atSave, w) && PendingOwned(w)
    requires Within(m, Table(r.atSave), WithPending(w, Registered(r)))
    ensures DatabaseSound(After(r), w) && Within(m, Table(After(r)), w)
  {
    RunAttempted(p, r);
    RunKeepsSound(r, w);
    SaveGrows(r.atSave, r.vectors, Final(r));
    WithinGrows(m, Table(r.atSave), Table(After(r)), WithPending(w, Registered(r)));
    PendingAbsorbed(m, After(r), w, Registered(r));
  }

  /** The caches at the end of any run, right pairs or wrong. */
  lemma BatchedEnd(p: Profile, r: Run, batch: UUID -> set<string>, m: map<string, UUID>)
    requires IsRun(p, r) && BatchedRun(r, batch) && Batched(m, Table(r.atSave), batch)
    ensures WholeBatches(After(r).vectors, batch) && Batched(m, Table(After(r)), batch)
  {
    RunKeepsBatches(p, r, batch);
    SaveGrows(r.atSave, r.vectors, Final(r));
    BatchedGrows(m, Table(r.atSave), Table(After(r)), batch);
  }

  lemma {:induction false} PairedNext(
    enriched: seq<Chunk>, now: seq<Chunk>, vectors: seq<Vector>, duplicates: seq<Chunk>, final: seq<Chunk>, i: nat)
    requires i < |enriched| == |now| && now[i..] == enriched[i..]
    requires final == duplicates + Paired(enriched, vectors)[..i]
    ensures now[i] == enriched[i]
    ensures var c := PairedAt(enriched[i], vectors, i);
            final + [c] == duplicates + Paired(enriched, vectors)[..i + 1] && now[i := c][i + 1..] == enriched[i + 1..]
  {
    var c, done := PairedAt(enriched[i], vectors, i), Paired(enriched, vectors);
    assert now[i] == now[i..][0] == enriched[i];
    assert done[..i + 1] == done[..i] + [c];
    assert now[i := c][i + 1..] == now[i..][1..] == enriched[i..][1..];
  }

  lemma {:induction false} RightPair(enriched: seq<Chunk>, vectors: seq<Vector>, w: World, i: nat)
    requires i < |enriched|
    ensures HashCorrect(enriched, vectors) && VectorsOwned(vectors, w.owner) ==>
              i < |vectors| ==> w.owner(vectors[i].id) == enriched[i].hash
    ensures KeptInBatch(enriched, vectors, w.batch) ==>
              i < |vectors| ==> enriched[i].hash in w.batch(vectors[i].id)
  {
  }

  lemma NoneRegistered(enriched: seq<Chunk>, vectors: seq<Vector>, w: World)
    ensures WithPending(w, RegisteredUpTo(enriched, vectors, 0)) == w
  {
  }

  lemma RegisteredStep(enriched: seq<Chunk>, vectors: seq<Vector>, w: World, i: nat)
    requires i < |enriched|
    ensures WithPending(w, RegisteredUpTo(enriched, vectors, i + 1))
         == var before := WithPending(w, RegisteredUpTo(enriched, vectors, i));
            if i < |vectors| then WithPending(before, iset{Entry(enriched[i].hash, vectors[i].id)}) else before
  {
  }
}
