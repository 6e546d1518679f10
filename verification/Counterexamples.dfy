/** Concrete runs at which a property fails once one of its conditions is dropped. Texts
    serve as their own hashes. */
module Counterexamples {
  import opened Domain
  import opened Repository
  import opened SaveLaws
  import opened Enrichment
  import opened Deduplicator
  import opened Runs
  import opened RunLaws
  import Fleet
  import Keywords
  import Pages
  import Segmenter
  import Windows
  import Worker

  /** Enrichment that changes nothing and drops these texts. */
  function Dropping(texts: set<string>): Profile {
    Profile(s => s, s => s !in texts, _ => "en", _ => 1, _ => [], _ => true, _ => [],
            Keywords.Lexicon(w => w, _ => false), _ => [])
  }

  function Piece(id: UUID, doc: UUID, index: nat, text: string): Chunk {
    Chunk(id, doc, NIL, index, text, text, PlainMetadata(1, 1, 0, 0, 1))
  }

  const EMPTY: Database := Database(map[], [])
  const NO_FAULTS: SaveFaults := SaveFaults(false, {}, {}, false)
  const COMMIT_FAILS: SaveFaults := SaveFaults(false, {}, {}, true)

  /** Fresh out of the segmenter, hashed, and one token long. */
  ghost predicate Plain(c: Chunk) {
    && c.hash == c.content && c.vectorId == NIL && c.metadata.tokenCount == 1
    && c.metadata.language == "en" && c.metadata.entities == [] && c.metadata.keywords == []
  }

  ghost predicate AllPlain(cs: seq<Chunk>) {
    forall i | 0 <= i < |cs| :: Plain(cs[i])
  }

  lemma {:induction false} EnrichedAsIs(texts: set<string>, c: Chunk)
    requires Plain(c)
    ensures EnrichedFrom(Dropping(texts), c, c)
  {
    assert c == Enriched(Dropping(texts), c, None, []);
    assert Spellings([]) == [];
    assert SpellsKeywords(Dropping(texts), c.content, []);
  }

  /** The chunks whose text is not among these. */
  function KeptOf(texts: set<string>, cs: seq<Chunk>): seq<Chunk> {
    if cs == [] then []
    else
      var c := cs[|cs| - 1];
      KeptOf(texts, cs[..|cs| - 1]) + if c.content == "" || c.content in texts then [] else [c]
  }

  lemma {:induction false} KeptUnchanged(texts: set<string>, cs: seq<Chunk>)
    requires AllPlain(cs)
    ensures IsFiltered(Dropping(texts), KeptOf(texts, cs), cs)
  {
    if cs != [] {
      var n := |cs| - 1;
      var c := cs[n];
      KeptUnchanged(texts, cs[..n]);
      EnrichedAsIs(texts, c);
      assert cs[..n + 1] == cs && KeptOf(texts, cs[..n]) + [] == KeptOf(texts, cs[..n]);
      assert Keeps(Dropping(texts), c) <==> c.content != "" && c.content !in texts;
      FilterNext(Dropping(texts), KeptOf(texts, cs[..n]), cs, n, if Keeps(Dropping(texts), c) then Some(c) else None);
    }
  }

  /** A run put together from its parts, with the fate it has to have. */
  ghost predicate Fits(texts: set<string>, r: Run) {
    && r.raw != [] && AllPlain(ToEmbed(r.raw, r.found))
    && LookupResult(r.found, ChunkHashes(r.raw), r.lost, r.memory, Table(r.before))
    && EmbeddingsOf(r.vectors, ToEmbed(r.raw, r.found)) && DistinctIds(r.vectors)
    && r.enriched == KeptOf(texts, ToEmbed(r.raw, r.found))
    && Grows(r.before, r.atSave) && UniqueRows(r.raw) && Consistent(r.atSave)
    && FreshIds(r.atSave.vectors, r.vectors)
  }

  ghost predicate RightFate(r: Run) {
    r.committed <==> NoFault(r.faults, |r.vectors|, |Final(r)|) && Admissible(r)
  }

  lemma {:induction false} FateWithoutFaults(r: Run)
    requires r.faults == NO_FAULTS && r.committed == Admissible(r)
    ensures RightFate(r)
  {
    assert NoFault(NO_FAULTS, |r.vectors|, |Final(r)|);
  }

  lemma {:induction false} FitIsRun(texts: set<string>, r: Run)
    requires Fits(texts, r) && RightFate(r)
    ensures IsRun(Dropping(texts), r)
  {
    var p := Dropping(texts);
    KeptUnchanged(texts, ToEmbed(r.raw, r.found));
    var s := r.(committed := NoFault(r.faults, |r.vectors|, |Final(r)|) && Accepts(r.atSave, r.vectors, Final(r)));
    assert Final(s) == Final(r);
    FitCommits(p, r, s);
  }

  lemma {:induction false} FitCommits(p: Profile, r: Run, s: Run)
    requires s == r.(committed := s.committed) && IsRun(p, s) && UniqueRows(s.raw) && Consistent(s.atSave)
    requires FreshIds(s.atSave.vectors, s.vectors)
    ensures s.committed <==> NoFault(r.faults, |r.vectors|, |Final(r)|) && Admissible(r)
  {
    CommitsExactly(p, s);
    assert Final(s) == Final(r);
  }

  lemma {:induction false} OneChunk(c: Chunk, found: map<string, UUID>)
    ensures Duplicates([c], found) == if c.hash in found then [c.(vectorId := found[c.hash])] else []
    ensures ToEmbed([c], found) == if c.hash in found then [] else [c]
    ensures ChunkHashes([c]) == {c.hash}
  {
    PartitionNext([c], found, 0);
    assert [c][..1] == [c] && [c][..0] == [];
  }

  lemma {:induction false} TwoChunks(c: Chunk, d: Chunk, found: map<string, UUID>)
    ensures Duplicates([c, d], found) ==
              (if c.hash in found then [c.(vectorId := found[c.hash])] else [])
              + if d.hash in found then [d.(vectorId := found[d.hash])] else []
    ensures ToEmbed([c, d], found) == (if c.hash in found then [] else [c]) + if d.hash in found then [] else [d]
    ensures ChunkHashes([c, d]) == {c.hash, d.hash}
  {
    OneChunk(c, found);
    PartitionNext([c, d], found, 1);
    assert [c, d][..2] == [c, d] && [c, d][..1] == [c];
  }

  lemma {:induction false} KeptOfTwo(texts: set<string>, c: Chunk, d: Chunk)
    ensures KeptOf(texts, [c]) == if c.content == "" || c.content in texts then [] else [c]
    ensures KeptOf(texts, [c, d]) == KeptOf(texts, [c]) + KeptOf(texts, [d])
  {
    assert [c][..0] == [] && [d][..0] == [] && [c, d][..1] == [c];
  }

  /** Two chunks with different texts, of which the lookup answers some. */
  lemma {:induction false} TwoFit(texts: set<string>, r: Run, c: Chunk, d: Chunk)
    requires r.raw == [c, d] && AllPlain(r.raw) && !Clash(c, d)
    requires LookupResult(r.found, {c.hash, d.hash}, r.lost, r.memory, Table(r.before))
    requires var cs := (if c.hash in r.found then [] else [c]) + if d.hash in r.found then [] else [d];
             EmbeddingsOf(r.vectors, cs) && DistinctIds(r.vectors) && r.enriched == KeptOf(texts, cs)
    requires Grows(r.before, r.atSave) && Consistent(r.atSave) && FreshIds(r.atSave.vectors, r.vectors)
    ensures Fits(texts, r)
  {
    TwoChunks(c, d, r.found);
    NewArePlain(r.raw, r.found);
  }

  lemma {:induction false} TwoRun(texts: set<string>, r: Run, c: Chunk, d: Chunk)
    requires r.raw == [c, d] && AllPlain(r.raw) && !Clash(c, d)
    requires LookupResult(r.found, {c.hash, d.hash}, r.lost, r.memory, Table(r.before))
    requires var cs := (if c.hash in r.found then [] else [c]) + if d.hash in r.found then [] else [d];
             EmbeddingsOf(r.vectors, cs) && DistinctIds(r.vectors) && r.enriched == KeptOf(texts, cs)
    requires Grows(r.before, r.atSave) && Consistent(r.atSave) && FreshIds(r.atSave.vectors, r.vectors)
    requires r.faults == NO_FAULTS && r.committed == Admissible(r)
    ensures IsRun(Dropping(texts), r)
  {
    FateWithoutFaults(r);
    TwoFit(texts, r, c, d);
    FitIsRun(texts, r);
  }

  lemma {:induction false} NewArePlain(raw: seq<Chunk>, found: map<string, UUID>)
    requires AllPlain(raw)
    ensures AllPlain(ToEmbed(raw, found))
  {
    forall m: nat | m < |ToEmbed(raw, found)| ensures Plain(ToEmbed(raw, found)[m]) {
      var k := ToEmbedFrom(raw, found, m);
    }
  }

  /** With no chunk rows in the way, no answers and distinct hashes, the tables admit a run. */
  lemma {:induction false} NothingInTheWay(r: Run)
    requires r.atSave.chunks == [] && r.found == map[] && DistinctHashes(r.vectors)
    ensures Admissible(r)
  {
  }

  /** Nothing kept, right answers, one row to save and its keys free: the tables admit it. */
  lemma {:induction false} OneRowAdmitted(r: Run, row: Chunk)
    requires Final(r) == [row] && NoClashWith(r.atSave.chunks, row)
    requires AnswersInTable(r) && r.enriched == [] && |r.vectors| <= 1
    ensures Admissible(r)
  {
    RightAnswersSettle(r);
  }

  // ------------------------------------------------------------------ the pairing

  /** Of two chunks the first is dropped and the second kept: it commits under the dropped
      chunk's vector. */
  lemma {:induction false} WrongPairingCommits() returns (p: Profile, r: Run)
    ensures IsRun(p, r) && r.committed && r.atSave == EMPTY && r.lost == {} && r.found == map[]
    ensures !Faithful(After(r))
  {
    p := Dropping({"a"});
    r := SecondOfTwo({"a"}, Piece(11, 5, 0, "a"), Piece(12, 5, 1, "b"));
  }

  lemma {:induction false} SecondOfTwo(texts: set<string>, c: Chunk, d: Chunk) returns (r: Run)
    requires Plain(c) && Plain(d) && !Clash(c, d) && c.hash != d.hash
    requires c.content in texts && d.content !in texts && d.content != ""
    ensures IsRun(Dropping(texts), r) && r.committed && r.atSave == EMPTY && r.lost == {} && r.found == map[]
    ensures !Faithful(After(r))
  {
    r := Run([c, d], map[], EMPTY, {}, map[], [Vector(1, c.hash, []), Vector(2, d.hash, [])], [d], EMPTY,
             NO_FAULTS, true);
    KeptOfTwo(texts, c, d);
    KeptOfTwo(texts, d, d);
    NothingInTheWay(r);
    TwoRun(texts, r, c, d);
    WrongPairing(Dropping(texts), r);
  }

  lemma {:induction false} WrongPairing(p: Profile, r: Run)
    requires IsRun(p, r) && r.committed && r.atSave == EMPTY && r.found == map[]
    requires |r.enriched| == 1 && |r.vectors| == 2 && r.enriched[0].hash != r.vectors[0].hash
    ensures !Faithful(After(r))
  {
    RowsExactly(p, r);
  }

  // ------------------------------------------------------------------ stale caches

  lemma {:induction false} OneFit(texts: set<string>, r: Run, c: Chunk)
    requires r.raw == [c] && Plain(c)
    requires LookupResult(r.found, {c.hash}, r.lost, r.memory, Table(r.before))
    requires var cs := if c.hash in r.found then [] else [c];
             EmbeddingsOf(r.vectors, cs) && DistinctIds(r.vectors) && r.enriched == KeptOf(texts, cs)
    requires Grows(r.before, r.atSave) && Consistent(r.atSave) && FreshIds(r.atSave.vectors, r.vectors)
    ensures Fits(texts, r)
  {
    OneChunk(c, r.found);
  }

  lemma {:induction false} OneRun(texts: set<string>, r: Run, c: Chunk)
    requires r.raw == [c] && Plain(c)
    requires LookupResult(r.found, {c.hash}, r.lost, r.memory, Table(r.before))
    requires var cs := if c.hash in r.found then [] else [c];
             EmbeddingsOf(r.vectors, cs) && DistinctIds(r.vectors) && r.enriched == KeptOf(texts, cs)
    requires Grows(r.before, r.atSave) && Consistent(r.atSave) && FreshIds(r.atSave.vectors, r.vectors)
    requires r.faults == NO_FAULTS && r.committed == Admissible(r)
    ensures IsRun(Dropping(texts), r)
  {
    FateWithoutFaults(r);
    OneFit(texts, r, c);
    FitIsRun(texts, r);
  }

  /** A row for the hash arrives between lookup and save: the run commits, its id is renamed,
      and the pair it registered is no row. */
  lemma {:induction false} RenameLeavesStalePair() returns (p: Profile, r: Run)
    ensures IsRun(p, r) && r.committed && FreshIds(r.atSave.vectors, r.vectors)
    ensures HashCorrect(r.enriched, r.vectors) && !AllRows(After(r), Registered(r))
  {
    var c := Piece(11, 5, 0, "a");
    p, r := Dropping({}), OneNew(c, 1, Database(map["a" := VectorRow(7, [])], []), NO_FAULTS, true);
    OneId("a", 7);
    OnlyCommitFails();
    OneNewIsRun(c, 1, r.atSave, NO_FAULTS, true);
    RenamedIsStale(p, r);
  }

  lemma {:induction false} RenamedIsStale(p: Profile, r: Run)
    requires IsRun(p, r) && r.committed && FreshIds(r.atSave.vectors, r.vectors)
    requires |r.enriched| == |r.vectors| == 1 && r.vectors[0].hash in r.atSave.vectors
    ensures !AllRows(After(r), Registered(r))
  {
    RunAttempted(p, r);
    RegistrationExact(r);
  }

  /** A run over one new chunk that is kept, looked up while the tables were empty and saved
      over tables without chunk rows: only a fault can stop it. */
  function OneNew(c: Chunk, id: UUID, db: Database, faults: SaveFaults, committed: bool): Run {
    Run([c], map[], EMPTY, {}, map[], [Vector(id, c.hash, [])], [c], db, faults, committed)
  }

  lemma {:induction false} OneNewIsRun(c: Chunk, id: UUID, db: Database, faults: SaveFaults, committed: bool)
    requires Plain(c) && c.content != "" && Consistent(db) && db.chunks == [] && id !in Ids(db.vectors)
    requires committed <==> NoFault(faults, 1, 1)
    ensures IsRun(Dropping({}), OneNew(c, id, db, faults, committed))
    ensures Final(OneNew(c, id, db, faults, committed)) == [c.(vectorId := id)]
  {
    var r := OneNew(c, id, db, faults, committed);
    FinalOfOneNew(r, c);
    OneNewFits(r, c, db);
    NothingInTheWay(r);
    FitIsRun({}, r);
  }

  lemma {:induction false} OneNewFits(r: Run, c: Chunk, db: Database)
    requires r.raw == r.enriched == [c] && Plain(c) && c.content != ""
    requires r.before == EMPTY && r.atSave == db && r.memory == r.found == map[] && r.lost == {}
    requires |r.vectors| == 1 && r.vectors[0].hash == c.hash && r.vectors[0].id !in Ids(db.vectors) && Consistent(db)
    ensures Fits({}, r)
  {
    KeptOfTwo({}, c, c);
    OneFit({}, r, c);
  }

  lemma {:induction false} FinalOfOneNew(r: Run, c: Chunk)
    requires r.raw == r.enriched == [c] && r.found == map[] && |r.vectors| == 1
    ensures Final(r) == [c.(vectorId := r.vectors[0].id)]
  {
    OneChunk(c, map[]);
  }

  lemma {:induction false} OnlyCommitFails()
    ensures NoFault(NO_FAULTS, 1, 1) && !NoFault(COMMIT_FAILS, 1, 1)
  {
  }

  /** A save whose commit fails once, and a redelivery that meets no fault at all: it finds
      the registered pair in memory and fails as well, with its keys free. */
  lemma {:induction false} FailureOutlivesItsCause() returns (p: Profile, r: Run, s: Run)
    ensures IsRun(p, r) && IsRun(p, s) && SameDocument(r.raw, s.raw) && r.atSave == s.before == s.atSave == EMPTY
    ensures r.memory == map[] && s.faults == NO_FAULTS && KeysFree(s)
    ensures |r.enriched| == |r.vectors| == 1 && s.memory == map[r.enriched[0].hash := r.vectors[0].id]
    ensures !r.committed && !s.committed
  {
    var c := Piece(11, 5, 0, "a");
    p, r := Dropping({}), OneNew(c, 1, EMPTY, COMMIT_FAILS, false);
    OnlyCommitFails();
    OneNewIsRun(c, 1, EMPTY, COMMIT_FAILS, false);
    s := FindsItsOwnPair(c, 1);
  }

  lemma {:induction false} FindsItsOwnPair(c: Chunk, id: UUID) returns (s: Run)
    requires Plain(c)
    ensures IsRun(Dropping({}), s) && SameDocument([c], s.raw) && s.before == s.atSave == EMPTY
    ensures s.memory == map[c.hash := id] && s.faults == NO_FAULTS && KeysFree(s) && !s.committed
  {
    var d := c.(id := c.id + 1);
    s := Run([d], map[d.hash := id], EMPTY, {}, map[d.hash := id], [], [], EMPTY, NO_FAULTS, false);
    DanglesAlone(s, d.hash);
    OneRun({}, s, d);
  }

  lemma {:induction false} DanglesAlone(s: Run, h: string)
    requires h in s.found && s.atSave == EMPTY && s.vectors == []
    ensures !Admissible(s)
  {
    assert !Settled(s, s.found[h]);
  }

  // ---------------------------------------------------------- more than one effect

  lemma {:induction false} OneVectorSaved(r: Run, v: Vector)
    requires r.vectors == [v] && r.committed
    ensures After(r).vectors == Upsert(r.atSave.vectors, v)
  {
    assert r.vectors[..0] == [] && r.vectors[0] == v;
    assert UpsertAll(r.atSave.vectors, []) == r.atSave.vectors;
  }

  /** The rows a run adds have the keys of its list. */
  lemma {:induction false} AddedRow(r: Run, row: Chunk)
    requires DistinctIds(r.vectors) && r.committed && Final(r) == [row] && r.atSave.chunks == []
    ensures |After(r).chunks| == 1 && SameKeys(After(r).chunks[0], row)
  {
    SavedElsewhereEqual(r.atSave, r.vectors, Final(r), 0);
  }

  lemma {:induction false} CommitIsConsistent(p: Profile, r: Run)
    requires IsRun(p, r) && r.committed && Consistent(r.atSave)
    ensures Consistent(After(r)) && Grows(r.atSave, After(r))
  {
    SaveKeepsConsistent(r.atSave, r.vectors, Final(r));
    SaveGrows(r.atSave, r.vectors, Final(r));
  }

  /** One text delivered twice under ids that differ, as happens when the event's document id
      does not parse: both deliveries commit, and the text is there twice. */
  lemma {:induction false} FreshDocumentIdDoubles() returns (p: Profile, r: Run, s: Run)
    ensures IsRun(p, r) && IsRun(p, s) && SameTexts(r.raw, s.raw) && s.before == s.atSave == After(r) && s.lost == {}
    ensures CommitsRows(r) && CommitsRows(s) && |After(s).chunks| == 2
  {
    var c := Piece(11, 5, 0, "a");
    p := Dropping({});
    r := FirstCopy(c, 1);
    s := Copied(After(r), c, Piece(12, 6, 0, "a"));
  }

  lemma {:induction false} FirstCopy(c: Chunk, id: UUID) returns (r: Run)
    requires Plain(c) && c.content != ""
    ensures IsRun(Dropping({}), r) && r.raw == [c] && r.atSave == EMPTY && CommitsRows(r)
    ensures Consistent(After(r)) && After(r).vectors == map[c.hash := VectorRow(id, [])]
    ensures |After(r).chunks| == 1 && SameKeys(After(r).chunks[0], c)
  {
    r := OneNew(c, id, EMPTY, NO_FAULTS, true);
    OnlyCommitFails();
    OneNewIsRun(c, id, EMPTY, NO_FAULTS, true);
    AddedRow(r, c.(vectorId := id));
    OneVectorSaved(r, r.vectors[0]);
    CommitIsConsistent(Dropping({}), r);
  }

  /** A text whose vector is known, over tables with one row of another document. */
  lemma {:induction false} Copied(db: Database, c: Chunk, d: Chunk) returns (s: Run)
    requires Consistent(db) && d.hash in Table(db) && |db.chunks| == 1 && SameKeys(db.chunks[0], c)
    requires Plain(d) && !Clash(c, d)
    ensures IsRun(Dropping({}), s) && s.raw == [d] && s.before == s.atSave == db && s.lost == {}
    ensures CommitsRows(s) && |After(s).chunks| == 2
  {
    var id := Table(db)[d.hash];
    s := Run([d], map[], db, {}, map[d.hash := id], [], [], db, NO_FAULTS, true);
    OneChunk(d, s.found);
    OneRowAdmitted(s, d.(vectorId := id));
    OneRun({}, s, d);
  }

  /** Two chunks the filter drops, one of them known: the first delivery saves the known one.
      The second loses that row in its lookup and has learnt the other: it saves a row, too. */
  lemma {:induction false} LostRowDoubles() returns (p: Profile, r: Run, s: Run)
    ensures IsRun(p, r) && IsRun(p, s) && SameDocument(r.raw, s.raw) && s.before == s.atSave == After(r)
    ensures AnswersInTable(r) && AnswersInTable(s) && CommitsRows(r) && CommitsRows(s)
  {
    var c, d, e, f := Piece(11, 5, 0, "a"), Piece(12, 5, 1, "b"), Piece(13, 5, 0, "a"), Piece(14, 5, 1, "b");
    p := Dropping({"a", "b"});
    r, s := LostRow({"a", "b"}, c, d, e, f);
  }

  lemma {:induction false} LostRow(texts: set<string>, c: Chunk, d: Chunk, e: Chunk, f: Chunk) returns (r: Run, s: Run)
    requires Plain(c) && Plain(d) && !Clash(c, d) && c.hash != d.hash && {c.content, d.content} <= texts
    requires Plain(e) && Plain(f) && !Clash(e, f) && !Clash(c, f) && SameChunk(c, e) && SameChunk(d, f)
    ensures IsRun(Dropping(texts), r) && IsRun(Dropping(texts), s) && SameDocument(r.raw, s.raw)
    ensures s.before == s.atSave == After(r)
    ensures AnswersInTable(r) && AnswersInTable(s) && CommitsRows(r) && CommitsRows(s)
  {
    r := OneOfTwoSaved(texts, c, d);
    s := DroppedAndKnown(texts, e, f, After(r), 3, c);
    SameTwo(c, d, e, f);
  }

  lemma {:induction false} SameTwo(c: Chunk, d: Chunk, e: Chunk, f: Chunk)
    requires SameChunk(c, e) && SameChunk(d, f)
    ensures SameDocument([c, d], [e, f])
  {
    forall k | 0 <= k < 2 ensures SameChunk([c, d][k], [e, f][k]) {
      assert k == 0 || k == 1;
    }
  }

  lemma {:induction false} OneOfTwoSaved(texts: set<string>, c: Chunk, d: Chunk) returns (r: Run)
    requires Plain(c) && Plain(d) && !Clash(c, d) && c.hash != d.hash && {c.content, d.content} <= texts
    ensures IsRun(Dropping(texts), r) && r.raw == [c, d] && CommitsRows(r) && AnswersInTable(r)
    ensures Consistent(After(r)) && |After(r).chunks| == 1 && SameKeys(After(r).chunks[0], c)
    ensures c.hash in After(r).vectors && d.hash in After(r).vectors && 3 !in Ids(After(r).vectors)
  {
    var db := Database(map[c.hash := VectorRow(1, [])], []);
    OneId(c.hash, 1);
    r := KnownAndDropped(texts, c, d, db, 2);
    AfterDropped(Dropping(texts), r, c, d);
    CommitIsConsistent(Dropping(texts), r);
  }

  lemma {:induction false} AfterDropped(p: Profile, r: Run, c: Chunk, d: Chunk)
    requires IsRun(p, r) && r.committed && r.atSave == Database(map[c.hash := VectorRow(1, [])], [])
    requires r.vectors == [Vector(2, d.hash, [])] && Final(r) == [c.(vectorId := 1)] && c.hash != d.hash
    ensures |After(r).chunks| == 1 && SameKeys(After(r).chunks[0], c)
    ensures c.hash in After(r).vectors && d.hash in After(r).vectors && 3 !in Ids(After(r).vectors)
  {
    AddedRow(r, c.(vectorId := 1));
    OneVectorSaved(r, r.vectors[0]);
  }

  lemma {:induction false} OneId(h: string, id: UUID)
    ensures Ids(map[h := VectorRow(id, [])]) == {id}
  {
    assert map[h := VectorRow(id, [])][h].id == id;
  }

  lemma {:induction false} KnownAndDropped(texts: set<string>, c: Chunk, d: Chunk, db: Database, id: UUID)
    returns (r: Run)
    requires Plain(c) && Plain(d) && !Clash(c, d) && c.hash != d.hash && {c.content, d.content} <= texts
    requires Consistent(db) && db.chunks == [] && c.hash in db.vectors && d.hash !in db.vectors
    requires id !in Ids(db.vectors)
    ensures IsRun(Dropping(texts), r) && r.raw == [c, d] && r.before == r.atSave == db && r.committed
    ensures r.vectors == [Vector(id, d.hash, [])] && Final(r) == [c.(vectorId := db.vectors[c.hash].id)]
    ensures AnswersInTable(r)
  {
    r := Run([c, d], map[], db, {}, map[c.hash := db.vectors[c.hash].id], [Vector(id, d.hash, [])], [], db,
             NO_FAULTS, true);
    OneAnswered(r, c.hash, d.hash);
    KeptOfTwo(texts, d, d);
    FinalOfKnown(r, c, d);
    OneRowAdmitted(r, c.(vectorId := db.vectors[c.hash].id));
    TwoRun(texts, r, c, d);
  }

  /** Of two hashes the lookup answers one; the other is no row, or its row was lost. */
  lemma {:induction false} OneAnswered(r: Run, known: string, other: string)
    requires known in r.before.vectors && r.found == map[known := r.before.vectors[known].id]
    requires other in r.before.vectors ==> other in r.lost
    requires r.memory == map[] && r.before == r.atSave
    ensures LookupResult(r.found, {known, other}, r.lost, r.memory, Table(r.before))
    ensures LookupResult(r.found, {other, known}, r.lost, r.memory, Table(r.before))
    ensures AnswersInTable(r) && Grows(r.before, r.atSave)
  {
    assert {other, known} == {known, other};
  }

  /** Nothing kept, one of two chunks known: the list is the known one. */
  lemma {:induction false} FinalOfKnown(r: Run, c: Chunk, d: Chunk)
    requires r.raw == [c, d] && r.enriched == [] && r.found.Keys == {c.hash} && c.hash != d.hash
    ensures Final(r) == [c.(vectorId := r.found[c.hash])]
  {
    TwoChunks(c, d, r.found);
  }

  lemma {:induction false} FinalOfLater(r: Run, c: Chunk, d: Chunk)
    requires r.raw == [c, d] && r.enriched == [] && r.found.Keys == {d.hash} && c.hash != d.hash
    ensures Final(r) == [d.(vectorId := r.found[d.hash])]
  {
    TwoChunks(c, d, r.found);
  }

  lemma {:induction false} DroppedAndKnown(
    texts: set<string>, c: Chunk, d: Chunk, db: Database, id: UUID, row: Chunk) returns (s: Run)
    requires Plain(c) && Plain(d) && !Clash(c, d) && c.hash != d.hash && {c.content, d.content} <= texts
    requires Consistent(db) && |db.chunks| == 1 && SameKeys(db.chunks[0], row) && !Clash(row, d)
    requires c.hash in db.vectors && d.hash in db.vectors && id !in Ids(db.vectors)
    ensures IsRun(Dropping(texts), s) && s.raw == [c, d] && s.before == s.atSave == db && CommitsRows(s)
    ensures AnswersInTable(s)
  {
    s := Run([c, d], map[], db, {c.hash}, map[d.hash := db.vectors[d.hash].id], [Vector(id, c.hash, [])], [], db,
             NO_FAULTS, true);
    OneAnswered(s, d.hash, c.hash);
    KeptOfTwo(texts, c, c);
    FinalOfLater(s, c, d);
    OneRowAdmitted(s, d.(vectorId := db.vectors[d.hash].id));
    TwoRun(texts, s, c, d);
  }

  // ------------------------------------------------------------------ never committed

  /** A text that occurs twice in one batch: no fault, free keys, a correct pairing, and the
      save fails all the same. */
  lemma {:induction false} RepeatedTextFails() returns (p: Profile, r: Run)
    ensures IsRun(p, r) && r.atSave == EMPTY && r.faults == NO_FAULTS && KeysFree(r) && NoneDangles(r)
    ensures HashCorrect(r.enriched, r.vectors) && |r.enriched| == |r.vectors| && !r.committed
  {
    p := Dropping({});
    r := SameTextTwice(Piece(11, 5, 0, "a"), Piece(12, 5, 1, "a"));
  }

  lemma {:induction false} SameTextTwice(c: Chunk, d: Chunk) returns (r: Run)
    requires Plain(c) && Plain(d) && !Clash(c, d) && c.hash == d.hash && c.content != ""
    ensures IsRun(Dropping({}), r) && r.atSave == EMPTY && r.faults == NO_FAULTS && KeysFree(r) && NoneDangles(r)
    ensures HashCorrect(r.enriched, r.vectors) && |r.enriched| == |r.vectors| && !r.committed
  {
    r := Run([c, d], map[], EMPTY, {}, map[], [Vector(1, c.hash, []), Vector(2, d.hash, [])], [c, d], EMPTY,
             NO_FAULTS, false);
    KeptOfTwo({}, c, d);
    KeptOfTwo({}, d, d);
    NothingButTheRepeat(r);
    TwoRun({}, r, c, d);
  }

  lemma {:induction false} NothingButTheRepeat(r: Run)
    requires |r.vectors| == 2 && r.vectors[0].hash == r.vectors[1].hash && r.atSave == EMPTY && r.found == map[]
    ensures KeysFree(r) && NoneDangles(r) && !Admissible(r)
  {
    assert Repeat(r.vectors, 0, 1);
  }

  /** What a failed save registered is stranded. */
  lemma {:induction false} FailedSaveStrands() returns (p: Profile, r: Run)
    ensures IsRun(p, r) && !r.committed && r.atSave == EMPTY && Fleet.Unmade(r) != iset{}
  {
    var s;
    p, r, s := FailureOutlivesItsCause();
    RunAttempted(p, r);
    Fleet.FailedStrandsAll(r);
  }

  /** Over a world that allows for nothing, one registration of another worker is enough to
      make the memory cache hold what is no row. */
  lemma {:induction false} RegistrationBreaksQuietWorld() returns (p: Profile, w: World, s: Fleet.State, t: Fleet.Step)
    ensures w.pending == iset{} && Fleet.Inv(w.owner, s) && Fleet.SoundIn(s, w)
    ensures t.RegisterMemory? && Fleet.Enabled(p, w.owner, s, t) && !Fleet.SoundIn(Fleet.Next(p, w.owner, s, t), w)
  {
    var c := Piece(11, 5, 0, "a");
    var job := Run([c], map[], EMPTY, {}, map[], [Vector(1, "a", [])], [c], EMPTY, NO_FAULTS, false);
    p, w := Dropping({}), World(_ => "a", iset{}, _ => {});
    s := Fleet.State(EMPTY, map[], map[], [Fleet.Pairing(job, 0, false)], iset{});
    t := Fleet.RegisterMemory(0);
    assert "a" in Fleet.Next(p, w.owner, s, t).cache;
  }

  /** A row that the query lost: the hash is in the table, and the lookup does not know it. */
  lemma {:induction false} LostRowIsMissed() returns (tiers: Tiers, io: LookupIO)
    ensures "a" in tiers.table && Answer(tiers, {"a"}, io) == Some(map[])
  {
    tiers, io := Tiers(map[], map[], map["a" := 1]), LookupIO({}, false, {"a"}, {});
    assert Early(tiers, {"a"}, io) == map[];
    assert {"a"} - Early(tiers, {"a"}, io).Keys == {"a"};
    assert Restrict(tiers.table, {"a"} - {"a"}) == map[];
  }

  // ------------------------------------------------------------------ an unseen scan error

  /** Windows of 1800 characters, and text functions that change nothing. */
  function Settings(): Segmenter.Config {
    Segmenter.Config(450, 80, Segmenter.CharacterBased, None, _ => 1, Pages.TextOps(s => s, s => |s|, s => s))
  }

  /** What the worker makes of the lines the scanner got to read. */
  function LinesRead(stream: seq<string>): seq<ExtractedLine> {
    var lines := Pages.Extracted(stream, Settings().ops);
    Pages.Kept(lines, lines, Settings().ops)
  }

  lemma {:induction false} OneLineRead(stream: seq<string>, n: nat)
    requires n < |stream| && Pages.Feeds(stream[n]) == 0
    ensures Pages.Extracted(stream[..n + 1], Settings().ops)
         == Pages.Extracted(stream[..n], Settings().ops)
            + [ExtractedLine(stream[n], 1 + Pages.FeedsIn(stream[..n]))]
    ensures Pages.FeedsIn(stream[..n + 1]) == Pages.FeedsIn(stream[..n])
  {
    Pages.FeedsNext(stream, n);
    Pages.ExtractedNext(stream, n, Settings().ops, Pages.Extracted(stream[..n], Settings().ops),
                        1 + Pages.FeedsIn(stream[..n]));
  }

  lemma {:induction false} LinesOfPrefix(a: string)
    requires a != "" && Pages.Feeds(a) == 0
    ensures LinesRead([a]) == [ExtractedLine(a, 1)]
    ensures Segmenter.FullText(LinesRead([a]), Settings().ops, "\n") == a + "\n"
  {
    var all, x := [a], ExtractedLine(a, 1);
    assert all[..1] == all && all[..0] == [];
    OneLineRead(all, 0);
    assert Pages.Extracted(all, Settings().ops) == [x];
    AloneOnPage([x]);
    OneLineText(x);
  }

  lemma {:induction false} LinesOfWhole(a: string, b: string)
    requires a != "" && b != "" && Pages.Feeds(a) == 0 && Pages.Feeds(b) == 0
    ensures LinesRead([a, b]) == [ExtractedLine(a, 1), ExtractedLine(b, 1)]
    ensures Segmenter.FullText(LinesRead([a, b]), Settings().ops, "\n") == a + "\n" + (b + "\n")
  {
    var all := [a, b];
    assert all[..2] == all && all[..1] == [a] && all[..0] == [];
    OneLineRead(all, 0);
    OneLineRead(all, 1);
    var x, y := ExtractedLine(a, 1), ExtractedLine(b, 1);
    assert Pages.Extracted(all, Settings().ops) == [x, y];
    AloneOnPage([x, y]);
    OneLineText(x);
    assert [x, y][..1] == [x];
  }

  lemma {:induction false} OneLineText(x: ExtractedLine)
    requires x.text != ""
    ensures Segmenter.FullText([x], Settings().ops, "\n") == x.text + "\n"
  {
    assert [x][..0] == [];
  }

  /** A document of one page has no recurring header. */
  lemma {:induction false} OnePage(xs: seq<ExtractedLine>)
    requires forall i | 0 <= i < |xs| :: xs[i].page == 1
    ensures Pages.TotalPages(xs) <= 1
  {
    if xs != [] {
      OnePage(xs[..|xs| - 1]);
    }
  }

  lemma {:induction false} AllKept(xs: seq<ExtractedLine>, all: seq<ExtractedLine>)
    requires Pages.TotalPages(all) <= 1
    ensures Pages.Kept(xs, all, Settings().ops) == xs
  {
    if xs != [] {
      AllKept(xs[..|xs| - 1], all);
    }
  }

  lemma {:induction false} AloneOnPage(xs: seq<ExtractedLine>)
    requires forall i | 0 <= i < |xs| :: xs[i].page == 1
    ensures Pages.Kept(xs, xs, Settings().ops) == xs
  {
    OnePage(xs);
    AllKept(xs, xs);
  }

  function Whole(id: UUID, doc: UUID, text: string): Chunk {
    Chunk(id, doc, NIL, 0, text, "", PlainMetadata(1, 1, 0, |text|, 1))
  }

  /** A text that fits one window is one chunk. */
  lemma {:induction false} OneWindow(lines: seq<ExtractedLine>, full: string, id: UUID, doc: UUID)
    requires lines != [] && lines[0].page == lines[|lines| - 1].page == 1
    requires Segmenter.FullText(lines, Settings().ops, "\n") == full && 0 < |full| <= 1800
    ensures Segmenter.IsSegmentation(Settings(), doc, lines, [Whole(id, doc, full)])
  {
    var cfg, ws := Settings(), [Windows.Window(0, |full|)];
    assert Windows.IsWindow(ws[0], |full|, cfg.target * 4, Windows.CalcStep(cfg.target * 4, cfg.overlap * 4), 0);
    assert full[0..|full|] == full;
    assert Segmenter.IsCharacterChunk(Whole(id, doc, full), cfg, lines, doc, full, ws[0], 0);
    assert Windows.AreWindows(ws, |full|, cfg.target * 4, Windows.CalcStep(cfg.target * 4, cfg.overlap * 4));
  }

  lemma {:induction false} OneWindowRaw(lines: seq<ExtractedLine>, full: string, id: UUID, doc: UUID)
    requires lines != [] && lines[0].page == lines[|lines| - 1].page == 1
    requires Segmenter.FullText(lines, Settings().ops, "\n") == full && 0 < |full| <= 1800
    ensures Worker.IsRaw(Settings(), x => x, doc, lines, k => id + k, [Whole(id, doc, full).(hash := full)])
  {
    var cs := [Whole(id, doc, full)];
    OneWindow(lines, full, id, doc);
    assert Worker.Hashed(cs, x => x) == [Whole(id, doc, full).(hash := full)];
    assert IdsFrom(cs, k => id + k);
  }

  /** The scanner broke off after the first of two lines and nobody saw it: the first line is
      committed as the document, and the redelivery that reads both lines fails for good. */
  lemma {:induction false} UnseenBreakIsFinal() returns (p: Profile, r: Run, s: Run)
    ensures Worker.IsRaw(Settings(), x => x, 5, LinesRead(["a"]), k => 11 + k, r.raw)
    ensures Worker.IsRaw(Settings(), x => x, 5, LinesRead(["a", "b"]), k => 12 + k, s.raw)
    ensures IsRun(p, r) && IsRun(p, s) && CommitsRows(r) && s.before == s.atSave == After(r)
    ensures s.faults == NO_FAULTS && !s.committed
  {
    RawOfBoth();
    p := Dropping({});
    r, s := TakenPlace(Whole(11, 5, "a\n").(hash := "a\n"), Whole(12, 5, "a\nb\n").(hash := "a\nb\n"));
  }

  lemma {:induction false} RawOfBoth()
    ensures Worker.IsRaw(Settings(), x => x, 5, LinesRead(["a"]), k => 11 + k,
                         [Whole(11, 5, "a\n").(hash := "a\n")])
    ensures Worker.IsRaw(Settings(), x => x, 5, LinesRead(["a", "b"]), k => 12 + k,
                         [Whole(12, 5, "a\nb\n").(hash := "a\nb\n")])
  {
    LinesOfPrefix("a");
    LinesOfWhole("a", "b");
    OneWindowRaw(LinesRead(["a"]), "a\n", 11, 5);
    OneWindowRaw(LinesRead(["a", "b"]), "a\nb\n", 12, 5);
  }

  lemma {:induction false} TakenPlace(c: Chunk, d: Chunk) returns (r: Run, s: Run)
    requires Plain(c) && Plain(d) && Clash(c, d) && c.content != "" && d.content != "" && c.hash != d.hash
    ensures IsRun(Dropping({}), r) && IsRun(Dropping({}), s) && r.raw == [c] && s.raw == [d]
    ensures CommitsRows(r) && s.before == s.atSave == After(r) && s.faults == NO_FAULTS && !s.committed
  {
    r := FirstCopy(c, 1);
    OneId(c.hash, 1);
    s := SamePlace(After(r), c, d, 2);
  }

  lemma {:induction false} SamePlace(db: Database, c: Chunk, d: Chunk, id: UUID) returns (s: Run)
    requires Consistent(db) && |db.chunks| == 1 && SameKeys(db.chunks[0], c) && Clash(c, d)
    requires Plain(d) && d.content != "" && d.hash !in db.vectors && id !in Ids(db.vectors)
    ensures IsRun(Dropping({}), s) && s.raw == [d] && s.before == s.atSave == db
    ensures s.faults == NO_FAULTS && !s.committed
  {
    s := Run([d], map[], db, {}, map[], [Vector(id, d.hash, [])], [d], db, NO_FAULTS, false);
    KeptOfTwo({}, d, d);
    FinalOfOneNew(s, d);
    assert !KeysFree(s) by {
      assert Clash(db.chunks[0], Final(s)[0]);
    }
    OneRun({}, s, d);
  }
}
