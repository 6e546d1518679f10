/** What a sequence of document runs can and cannot do: cache coherence, one effect per
    redelivered event, and the lasting damage of a failed save. */
module RunLaws {
  import opened Domain
  import opened Repository
  import opened SaveLaws
  import opened Enrichment
  import opened Deduplicator
  import opened Runs

  // ------------------------------------------------------------------- coherence

  /** None of the kept chunks' hashes was inserted by somebody else before the save. */
  ghost predicate NoRename(r: Run) {
    forall j | 0 <= j < |r.enriched| && j < |r.vectors| :: r.vectors[j].hash !in r.atSave.vectors
  }

  ghost predicate IsRow(db: Database, e: Entry) {
    e.hash in Table(db) && Table(db)[e.hash] == e.id
  }

  ghost predicate AllRows(db: Database, es: iset<Entry>) {
    forall e | e in es :: IsRow(db, e)
  }

  /** Under which condition vector j's id ends up as the table's id for hash h. */
  lemma TableIdExactly(t: map<string, VectorRow>, vs: seq<Vector>, j: nat, h: string)
    requires DistinctIds(vs) && FreshIds(t, vs) && j < |vs|
    ensures (h in UpsertAll(t, vs) && UpsertAll(t, vs)[h].id == vs[j].id)
            <==> vs[j].hash == h && First(vs, j) && h !in t
  {
    UpsertAllKeys(t, vs, vs[j].hash);
    assert vs[j] in vs;
    if h in t {
      IdOfRow(t, h);
      UpsertAllKeepsId(t, vs, h);
    } else if h in UpsertAll(t, vs) {
      UpsertAllKeys(t, vs, h);
      var k :| 0 <= k < |vs| && vs[k].hash == h;
      FirstExists(vs, k);
      var i :| First(vs, i) && vs[i].hash == h;
      FinalId(t, vs, i);
    }
  }

  /** In a committed run each kept chunk's vector is the first of its hash: the row of a
      later carrier would dangle. */
  lemma KeptAreFirst(r: Run, j: nat)
    requires Attempted(r) && r.committed && FreshIds(r.atSave.vectors, r.vectors)
    requires j < |r.enriched|
    ensures j < |r.vectors| && First(r.vectors, j)
  {
    FinalPaired(r, j);
    AcceptedNamesFirst(r.atSave, r.vectors, Final(r), j, |Duplicates(r.raw, r.found)| + j);
  }

  /** The pairs a committed run put into the caches ahead of its save are rows of the table
      afterwards exactly when the pairing was right and no id was renamed. */
  lemma RegistrationExact(r: Run)
    requires Attempted(r) && r.committed && FreshIds(r.atSave.vectors, r.vectors)
    ensures AllRows(After(r), Registered(r)) <==> HashCorrect(r.enriched, r.vectors) && NoRename(r)
  {
    forall j: nat | j < |r.enriched|
      ensures IsRow(After(r), Entry(r.enriched[j].hash, r.vectors[j].id))
              <==> r.vectors[j].hash == r.enriched[j].hash && r.vectors[j].hash !in r.atSave.vectors
    {
      KeptAreFirst(r, j);
      TableIdExactly(r.atSave.vectors, r.vectors, j, r.enriched[j].hash);
    }
    RegisteredEach(r, After(r));
  }

  lemma RegisteredEach(r: Run, db: Database)
    requires |r.enriched| <= |r.vectors|
    ensures AllRows(db, Registered(r)) <==>
              forall j: nat | j < |r.enriched| :: IsRow(db, Entry(r.enriched[j].hash, r.vectors[j].id))
  {
  }

  /** A run after which the caches agree with the table again. */
  ghost predicate Clean(r: Run) {
    if r.committed then HashCorrect(r.enriched, r.vectors) && NoRename(r) && FreshIds(r.atSave.vectors, r.vectors)
    else r.enriched == []
  }

  /** After a clean run nothing stays pending on its account. */
  lemma CleanRunSettles(p: Profile, r: Run)
    requires IsRun(p, r) && Clean(r)
    ensures AllRows(After(r), Registered(r))
  {
    if r.committed {
      RunAttempted(p, r);
      RegistrationExact(r);
    } else {
      assert Registered(r) == iset{};
    }
  }

  /** When nothing is dropped, only lists with distinct hashes commit, and the pairing is
      right without further conditions. */
  lemma NothingDropped(p: Profile, r: Run)
    requires IsRun(p, r) && r.committed && FreshIds(r.atSave.vectors, r.vectors)
    requires |r.enriched| == |r.vectors|
    ensures DistinctHashes(r.vectors) && HashCorrect(r.enriched, r.vectors)
  {
    RunAttempted(p, r);
    forall j | 0 <= j < |r.vectors| ensures First(r.vectors, j) {
      KeptAreFirst(r, j);
    }
    FirstsAreDistinct(r.vectors);
    var cs := ToEmbed(r.raw, r.found);
    KeptInOrder(p, cs);
    forall j: nat | j < |cs| ensures KeptAt(p, cs)[j] == j {
      FullRank(KeptAt(p, cs), j);
    }
    PrefixPositions(p, cs);
    PairingOfRun(p, r);
  }

  /** n strictly increasing numbers below n are 0, 1, ..., n - 1. */
  lemma {:induction false} FullRank(at: seq<nat>, j: nat)
    requires j < |at| && (forall i, k | 0 <= i < k < |at| :: at[i] < at[k])
    requires forall i | 0 <= i < |at| :: at[i] < |at|
    ensures at[j] == j
  {
    AtLeastRank(at, j);
    AtMostRank(at, j);
  }

  lemma {:induction false} AtLeastRank(at: seq<nat>, j: nat)
    requires j < |at| && forall i, k | 0 <= i < k < |at| :: at[i] < at[k]
    ensures at[j] >= j
  {
    if j > 0 {
      AtLeastRank(at, j - 1);
    }
  }

  lemma {:induction false} AtMostRank(at: seq<nat>, j: nat)
    requires j < |at| && (forall i, k | 0 <= i < k < |at| :: at[i] < at[k])
    requires forall i | 0 <= i < |at| :: at[i] < |at|
    ensures at[j] <= j
    decreases |at| - j
  {
    if j < |at| - 1 {
      AtMostRank(at, j + 1);
    }
  }

  // ---------------------------------------------------------- which runs commit

  ghost predicate NoClashWith(rows: seq<Chunk>, c: Chunk) {
    forall i | 0 <= i < |rows| :: !Clash(rows[i], c)
  }

  lemma InsertUnique(a: seq<Chunk>, b: seq<Chunk>, c: Chunk)
    requires UniqueRows(a + b) && NoClashWith(a + b, c)
    ensures UniqueRows(a + [c] + b) && UniqueRows(a + (b + [c]))
  {
    var p, q, ab := a + [c] + b, a + (b + [c]), a + b;
    forall i, j | 0 <= i < j < |p| ensures !Clash(p[i], p[j]) {
      assert i < |a| ==> p[i] == ab[i];
      assert i > |a| ==> p[i] == ab[i - 1];
      assert j < |a| ==> p[j] == ab[j];
      assert j > |a| ==> p[j] == ab[j - 1];
    }
    forall i, j | 0 <= i < j < |q| ensures !Clash(q[i], q[j]) {
      assert q[i] == ab[i];
      assert j < |ab| ==> q[j] == ab[j];
    }
  }

  lemma PartitionElsewhere(raw: seq<Chunk>, found: map<string, UUID>, c: Chunk)
    requires NoClashWith(raw, c)
    ensures NoClashWith(Duplicates(raw, found) + ToEmbed(raw, found), c)
  {
    var n := |Duplicates(raw, found)|;
    forall i: nat | i < n + |ToEmbed(raw, found)| ensures !Clash((Duplicates(raw, found) + ToEmbed(raw, found))[i], c) {
      if i < n {
        var k := DuplicatesFrom(raw, found, i);
        assert !Clash(raw[k], c);
      } else {
        var k := ToEmbedFrom(raw, found, i - n);
        assert !Clash(raw[k], c);
      }
    }
  }

  /** Splitting keeps (document, index) and ids unique across both sides. */
  lemma {:induction false} PartitionUnique(raw: seq<Chunk>, found: map<string, UUID>)
    requires UniqueRows(raw)
    ensures UniqueRows(Duplicates(raw, found) + ToEmbed(raw, found))
  {
    if raw != [] {
      var n := |raw| - 1;
      var init, c := raw[..n], raw[n];
      var d := if c.hash in found then c.(vectorId := found[c.hash]) else c;
      forall i | 0 <= i < n ensures !Clash(init[i], d) {
        assert !Clash(raw[i], raw[n]);
      }
      PartitionUnique(init, found);
      PartitionElsewhere(init, found, d);
      InsertUnique(Duplicates(init, found), ToEmbed(init, found), d);
      if c.hash in found {
        assert Duplicates(raw, found) == Duplicates(init, found) + [d] && ToEmbed(raw, found) == ToEmbed(init, found);
      } else {
        assert Duplicates(raw, found) == Duplicates(init, found) && ToEmbed(raw, found) == ToEmbed(init, found) + [d];
      }
    }
  }

  /** Row m of the list has the keys of chunk at of the split list, at growing with m. */
  lemma {:induction false} FinalKeys(p: Profile, r: Run, m: nat) returns (at: nat)
    requires IsRun(p, r) && m < |Final(r)|
    ensures var n, kept := |Duplicates(r.raw, r.found)|, KeptAt(p, ToEmbed(r.raw, r.found));
            if m < n then at == m else m - n < |kept| && at == n + kept[m - n]
    ensures var split := Duplicates(r.raw, r.found) + ToEmbed(r.raw, r.found);
            at < |split| && SameKeys(Final(r)[m], split[at])
  {
    if m < |Duplicates(r.raw, r.found)| {
      at := m;
      FrontKeys(r, m);
    } else {
      at := BackKeys(p, r, m);
    }
  }

  lemma {:induction false} BackKeys(p: Profile, r: Run, m: nat) returns (at: nat)
    requires IsRun(p, r) && |Duplicates(r.raw, r.found)| <= m < |Final(r)|
    ensures var n, kept := |Duplicates(r.raw, r.found)|, KeptAt(p, ToEmbed(r.raw, r.found));
            m - n < |kept| && at == n + kept[m - n]
    ensures var split := Duplicates(r.raw, r.found) + ToEmbed(r.raw, r.found);
            at < |split| && SameKeys(Final(r)[m], split[at])
  {
    var n := |Duplicates(r.raw, r.found)|;
    var j := m - n;
    assert n + j == m;
    var i := PairedOrigin(p, r, j);
    at := n + i;
    SplitAt(r, i);
  }

  lemma {:induction false} FrontKeys(r: Run, m: nat)
    requires m < |Duplicates(r.raw, r.found)|
    ensures var split := Duplicates(r.raw, r.found) + ToEmbed(r.raw, r.found);
            m < |Final(r)| && m < |split| && SameKeys(Final(r)[m], split[m])
  {
    FrontAt(r, m);
  }

  lemma {:induction false} FrontAt(r: Run, m: nat)
    requires m < |Duplicates(r.raw, r.found)|
    ensures m < |Final(r)| && Final(r)[m] == Duplicates(r.raw, r.found)[m]
    ensures (Duplicates(r.raw, r.found) + ToEmbed(r.raw, r.found))[m] == Duplicates(r.raw, r.found)[m]
  {
  }

  /** The new chunk behind kept chunk j, and where its row ends up. */
  lemma {:induction false} PairedOrigin(p: Profile, r: Run, j: nat) returns (i: nat)
    requires IsRun(p, r) && |Duplicates(r.raw, r.found)| + j < |Final(r)|
    ensures var cs := ToEmbed(r.raw, r.found);
            && j < |KeptAt(p, cs)| && i == KeptAt(p, cs)[j] && i < |cs| && Keeps(p, cs[i])
            && SameKeys(Final(r)[|Duplicates(r.raw, r.found)| + j], cs[i])
  {
    i := KeptOrigin(p, r, j);
    KeptInOrder(p, ToEmbed(r.raw, r.found));
    PairsFit(p, r);
    FinalPaired(r, j);
  }

  lemma SplitAt(r: Run, i: nat)
    requires i < |ToEmbed(r.raw, r.found)|
    ensures var split, n := Duplicates(r.raw, r.found) + ToEmbed(r.raw, r.found), |Duplicates(r.raw, r.found)|;
            n + i < |split| && split[n + i] == ToEmbed(r.raw, r.found)[i]
  {
  }

  /** The new chunk that kept chunk j was made from. */
  lemma KeptOrigin(p: Profile, r: Run, j: nat) returns (i: nat)
    requires IsRun(p, r) && j < |r.enriched|
    ensures var cs := ToEmbed(r.raw, r.found);
            && j < |KeptAt(p, cs)| && i == KeptAt(p, cs)[j] && i < |cs|
            && EnrichedFrom(p, r.enriched[j], cs[i])
  {
    var cs := ToEmbed(r.raw, r.found);
    KeptInOrder(p, cs);
    assert FilteredAt(p, r.enriched, cs, j);
    i := KeptAt(p, cs)[j];
  }

  lemma FinalUnique(p: Profile, r: Run)
    requires IsRun(p, r) && UniqueRows(r.raw)
    ensures UniqueRows(Final(r))
  {
    PartitionUnique(r.raw, r.found);
    forall i: nat, j: nat | i < j < |Final(r)| ensures !Clash(Final(r)[i], Final(r)[j]) {
      KeysApart(p, r, i, j);
    }
  }

  lemma KeysApart(p: Profile, r: Run, i: nat, j: nat)
    requires IsRun(p, r) && UniqueRows(Duplicates(r.raw, r.found) + ToEmbed(r.raw, r.found))
    requires i < j < |Final(r)|
    ensures !Clash(Final(r)[i], Final(r)[j])
  {
    var split := Duplicates(r.raw, r.found) + ToEmbed(r.raw, r.found);
    KeptInOrder(p, ToEmbed(r.raw, r.found));
    var x := FinalKeys(p, r, i);
    var y := FinalKeys(p, r, j);
    assert !Clash(split[x], split[y]);
  }

  /** Every answered id is a row by the time of the save, or a first vector of the run. */
  ghost predicate NoneDangles(r: Run) {
    forall h | h in r.found :: Settled(r, r.found[h])
  }

  ghost predicate Settled(r: Run, id: UUID) {
    id in Ids(r.atSave.vectors) || NamesFirst(r.vectors, id)
  }

  /** No kept chunk sits at the position of a repeated hash. */
  ghost predicate KeptFirst(r: Run) {
    forall j | 0 <= j < |r.enriched| && j < |r.vectors| :: First(r.vectors, j)
  }

  /** No row to save has an id or a (document, index) that is taken. */
  ghost predicate KeysFree(r: Run) {
    forall m | 0 <= m < |Final(r)| :: NoClashWith(r.atSave.chunks, Final(r)[m])
  }

  /** What the tables' constraints ask of a run. */
  ghost predicate Admissible(r: Run) {
    NoRepeats(r.vectors) && KeysFree(r) && KeptFirst(r) && NoneDangles(r)
  }

  /** Which runs commit, ids being fresh: exactly those that meet no fault, bring no hash
      twice into one statement, take no key that is taken, have no kept chunk at a repeated
      hash, and were answered with nothing that is no row. */
  lemma CommitsExactly(p: Profile, r: Run)
    requires IsRun(p, r) && UniqueRows(r.raw) && Consistent(r.atSave) && FreshIds(r.atSave.vectors, r.vectors)
    ensures r.committed <==> NoFault(r.faults, |r.vectors|, |Final(r)|) && Admissible(r)
  {
    FinalUnique(p, r);
    AcceptsExactly(r.atSave, r.vectors, Final(r));
    ReferencesOfRun(p, r);
    UniqueAppend(r.atSave.chunks, Final(r));
    if Final(r) == [] {
      assert r.atSave.chunks + Final(r) == r.atSave.chunks;
    }
  }

  lemma ReferencesOfRun(p: Profile, r: Run)
    requires IsRun(p, r) && FreshIds(r.atSave.vectors, r.vectors)
    ensures ReferencesKnown(r.atSave, r.vectors, Final(r)) <==> KeptFirst(r) && NoneDangles(r)
  {
    var n := |Duplicates(r.raw, r.found)|;
    if KeptFirst(r) && NoneDangles(r) {
      forall m: nat | m < |Final(r)| ensures Settled(r, Final(r)[m].vectorId) {
        RowSettled(p, r, m);
      }
    }
    if ReferencesKnown(r.atSave, r.vectors, Final(r)) {
      forall j: nat | j < |r.enriched| && j < |r.vectors| ensures First(r.vectors, j) {
        PairsFit(p, r);
        FinalPaired(r, j);
        assert Settled(r, Final(r)[n + j].vectorId);
      }
      forall h | h in r.found ensures Settled(r, r.found[h]) {
        var k := AnsweredChunk(p, r, h);
        var m := DuplicatesHold(r.raw, r.found, k);
        assert Final(r)[m] == Duplicates(r.raw, r.found)[m];
      }
    }
  }

  lemma RowSettled(p: Profile, r: Run, m: nat)
    requires IsRun(p, r) && KeptFirst(r) && NoneDangles(r) && m < |Final(r)|
    ensures Settled(r, Final(r)[m].vectorId)
  {
    var n := |Duplicates(r.raw, r.found)|;
    if m < n {
      var k := DuplicatesFrom(r.raw, r.found, m);
      assert Settled(r, r.found[r.raw[k].hash]);
    } else {
      PairsFit(p, r);
      FinalPaired(r, m - n);
    }
  }

  /** Lookups answer only hashes of the batch. */
  lemma AnsweredChunk(p: Profile, r: Run, h: string) returns (k: nat)
    requires IsPrepared(p, r) && h in r.found
    ensures k < |r.raw| && r.raw[k].hash == h
  {
    assert h in ChunkHashes(r.raw);
    var c :| c in r.raw && c.hash == h;
    k :| k < |r.raw| && r.raw[k] == c;
  }

  /** The answers of a lookup are rows of the table. */
  ghost predicate AnswersInTable(r: Run) {
    Submap(r.found, Table(r.atSave))
  }

  lemma RightAnswersSettle(r: Run)
    requires AnswersInTable(r)
    ensures NoneDangles(r)
  {
    forall h | h in r.found ensures Settled(r, r.found[h]) {
      IdOfRow(r.atSave.vectors, h);
    }
  }

  /** All that is known of a run over a sound state: its ids are its own, and its answers were
      rows or pending. */
  ghost predicate SoundRun(r: Run, w: World) {
    && OwnIds(r, w.owner) && Owned(r.atSave.vectors, w.owner) && PendingOwned(w)
    && Within(r.found, Table(r.atSave), w)
  }

  /** When a sound run commits, its answers were the table's own, however stale the caches it
      asked: the foreign key admits no id that is no row, and no id is a row under a hash
      other than its own. */
  lemma CommittedAnswersRight(p: Profile, r: Run, w: World)
    requires IsRun(p, r) && r.committed && SoundRun(r, w)
    ensures AnswersInTable(r)
  {
    forall h | h in r.found ensures h in Table(r.atSave) && Table(r.atSave)[h] == r.found[h] {
      AnswerRight(p, r, w, h);
    }
  }

  lemma AnswerRight(p: Profile, r: Run, w: World, h: string)
    requires IsRun(p, r) && r.committed && SoundRun(r, w) && h in r.found
    ensures h in Table(r.atSave) && Table(r.atSave)[h] == r.found[h]
  {
    var u, id := UpsertAll(r.atSave.vectors, r.vectors), r.found[h];
    assert Known(w, Table(r.atSave), h, id);
    if h !in Table(r.atSave) || Table(r.atSave)[h] != id {
      assert w.owner(id) == h;
      var k := AnsweredChunk(p, r, h);
      var m := DuplicatesHold(r.raw, r.found, k);
      assert Final(r)[m].vectorId == id;
      NoVectorForKnown(r, h);
      SavedAsIs(r.atSave, r.vectors, Final(r), m);
      SavedReference(r.atSave, r.vectors, Final(r), m);
      UpsertKeepsOwned(r.atSave.vectors, r.vectors, w.owner);
      UpsertAllKeys(r.atSave.vectors, r.vectors, h);
      UpsertAllKeepsId(r.atSave.vectors, r.vectors, h);
    }
  }

  /** Every hash the lookup answered is in the table at the save, under whatever id. */
  ghost predicate AnswersKnown(r: Run) {
    r.found.Keys <= Table(r.atSave).Keys
  }

  /** When a run commits, every hash its lookup answered is in the table, however stale the
      caches were and whatever earlier runs had paired with what: an answer's id is a row, and
      with a row comes the batch of its id. */
  lemma CommittedAnswersKnown(p: Profile, r: Run, batch: UUID -> set<string>)
    requires IsRun(p, r) && r.committed && BatchedRun(r, batch)
    ensures AnswersKnown(r)
  {
    forall h | h in r.found ensures h in Table(r.atSave) {
      AnswerKnown(p, r, batch, h);
    }
  }

  lemma AnswerKnown(p: Profile, r: Run, batch: UUID -> set<string>, h: string)
    requires IsRun(p, r) && r.committed && BatchedRun(r, batch) && h in r.found
    ensures h in Table(r.atSave)
  {
    assert Placed(Table(r.atSave), batch, h, r.found[h]);
    if h !in Table(r.atSave) {
      var id := r.found[h];
      NoVectorForKnown(r, h);
      assert h !in Hashes(r.vectors);
      NotOfThisBatch(r, batch, h, id);
      var g := RowOfAnswer(p, r, h);
    }
  }

  lemma NotOfThisBatch(r: Run, batch: UUID -> set<string>, h: string, id: UUID)
    requires OwnBatch(r.vectors, batch) && h in batch(id) && h !in Hashes(r.vectors)
    ensures forall i | 0 <= i < |r.vectors| :: r.vectors[i].id != id
  {
  }

  /** The row a committed run's answer names, when it is not one of the run's own. */
  lemma RowOfAnswer(p: Profile, r: Run, h: string) returns (g: string)
    requires IsRun(p, r) && r.committed && h in r.found
    requires forall i | 0 <= i < |r.vectors| :: r.vectors[i].id != r.found[h]
    ensures g in r.atSave.vectors && r.atSave.vectors[g].id == r.found[h]
  {
    var id := r.found[h];
    var k := AnsweredChunk(p, r, h);
    var m := DuplicatesHold(r.raw, r.found, k);
    assert Final(r)[m].vectorId == id;
    SavedAsIs(r.atSave, r.vectors, Final(r), m);
    SavedReference(r.atSave, r.vectors, Final(r), m);
    UpsertAllForeignId(r.atSave.vectors, r.vectors, id);
    g :| g in r.atSave.vectors && r.atSave.vectors[g].id == id;
  }

  /** No vector is made for an answered hash. */
  lemma NoVectorForKnown(r: Run, h: string)
    requires EmbeddingsOf(r.vectors, ToEmbed(r.raw, r.found)) && h in r.found
    ensures forall i | 0 <= i < |r.vectors| :: r.vectors[i].hash != h
    ensures !Carries(r.vectors, h)
  {
    forall i: nat | i < |r.vectors| ensures r.vectors[i].hash != h {
      var k := ToEmbedFrom(r.raw, r.found, i);
    }
  }

  lemma UniqueAppend(a: seq<Chunk>, b: seq<Chunk>)
    requires UniqueRows(a) && UniqueRows(b)
    ensures UniqueRows(a + b) <==> forall m | 0 <= m < |b| :: NoClashWith(a, b[m])
  {
    var ab := a + b;
    if UniqueRows(ab) {
      forall m | 0 <= m < |b| ensures NoClashWith(a, b[m]) {
        forall i | 0 <= i < |a| ensures !Clash(a[i], b[m]) {
          assert !Clash(ab[i], ab[|a| + m]);
        }
      }
    }
    if forall m | 0 <= m < |b| :: NoClashWith(a, b[m]) {
      forall i, j | 0 <= i < j < |ab| ensures !Clash(ab[i], ab[j]) {
        if i < |a| <= j {
          assert NoClashWith(a, b[j - |a|]);
        } else if i >= |a| {
          assert !Clash(b[i - |a|], b[j - |a|]);
        }
      }
    }
  }

  // ------------------------------------------------------------------ redelivery

  /** The same document segmented again: other chunk ids, everything else equal. */
  ghost predicate SameDocument(a: seq<Chunk>, b: seq<Chunk>) {
    |a| == |b| && forall k | 0 <= k < |a| :: SameChunk(a[k], b[k])
  }

  /** The same texts, perhaps under another document id. */
  ghost predicate SameTexts(a: seq<Chunk>, b: seq<Chunk>) {
    |a| == |b| && forall k | 0 <= k < |a| :: SameText(a[k], b[k])
  }

  ghost predicate SameText(c: Chunk, d: Chunk) {
    c.content == d.content && c.hash == d.hash
  }

  lemma SameDocumentSameTexts(a: seq<Chunk>, b: seq<Chunk>)
    requires SameDocument(a, b)
    ensures SameTexts(a, b)
  {
  }

  ghost predicate SameChunk(c: Chunk, d: Chunk) {
    c.documentId == d.documentId && c.index == d.index && c.content == d.content && c.hash == d.hash
  }

  ghost predicate SameKey(c: Chunk, d: Chunk) {
    c.documentId == d.documentId && c.index == d.index
  }

  /** Position k of the document gets a row: a known hash, or a new one that passes. */
  ghost predicate Saves(p: Profile, r: Run, k: int) {
    0 <= k < |r.raw| && (r.raw[k].hash in r.found || Keeps(p, r.raw[k]))
  }

  lemma SavedRowOf(p: Profile, r: Run, k: nat) returns (m: nat)
    requires IsRun(p, r) && Saves(p, r, k)
    ensures m < |Final(r)| && SameKey(Final(r)[m], r.raw[k])
  {
    if r.raw[k].hash in r.found {
      m := DuplicatesHold(r.raw, r.found, k);
    } else {
      var i := ToEmbedHolds(r.raw, r.found, k);
      var j := KeptRank(p, r, i);
      PairsFit(p, r);
      FinalPaired(r, j);
      m := |Duplicates(r.raw, r.found)| + j;
    }
  }

  /** The kept chunk made from new chunk i. */
  lemma KeptRank(p: Profile, r: Run, i: nat) returns (j: nat)
    requires IsRun(p, r) && i < |ToEmbed(r.raw, r.found)| && Keeps(p, ToEmbed(r.raw, r.found)[i])
    ensures j < |r.enriched| && EnrichedFrom(p, r.enriched[j], ToEmbed(r.raw, r.found)[i])
  {
    var cs := ToEmbed(r.raw, r.found);
    KeptInOrder(p, cs);
    j :| j < |KeptAt(p, cs)| && KeptAt(p, cs)[j] == i;
    var origin := KeptOrigin(p, r, j);
  }

  lemma SavedRowFrom(p: Profile, r: Run, m: nat) returns (k: nat)
    requires IsRun(p, r) && m < |Final(r)|
    ensures Saves(p, r, k) && SameKey(Final(r)[m], r.raw[k])
  {
    var n := |Duplicates(r.raw, r.found)|;
    if m < n {
      FrontAt(r, m);
      k := DuplicatesFrom(r.raw, r.found, m);
    } else {
      k := SavedNewFrom(p, r, m - n);
    }
  }

  lemma SavedNewFrom(p: Profile, r: Run, j: nat) returns (k: nat)
    requires IsRun(p, r) && |Duplicates(r.raw, r.found)| + j < |Final(r)|
    ensures Saves(p, r, k) && SameKey(Final(r)[|Duplicates(r.raw, r.found)| + j], r.raw[k])
  {
    var i := PairedOrigin(p, r, j);
    k := ToEmbedFrom(r.raw, r.found, i);
  }

  /** Of two runs that would both save position k of a document, whatever their texts, at most
      one commits: (document, index) is unique. */
  lemma NotBoth(p: Profile, r: Run, s: Run, k: nat)
    requires IsRun(p, r) && IsRun(p, s)
    requires Saves(p, r, k) && Saves(p, s, k) && SameKey(r.raw[k], s.raw[k])
    requires r.committed && Grows(After(r), s.atSave)
    ensures !s.committed
  {
    var m := SavedRowOf(p, r, k);
    var n := SavedRowOf(p, s, k);
    var row := SavedRows(r.atSave, r.vectors, Final(r))[m];
    SavedElsewhereEqual(r.atSave, r.vectors, Final(r), m);
    assert row in After(r).chunks;
    if s.committed {
      SavedElsewhereEqual(s.atSave, s.vectors, Final(s), n);
      var i :| 0 <= i < |s.atSave.chunks| && s.atSave.chunks[i] == row;
      var rows := s.atSave.chunks + SavedRows(s.atSave, s.vectors, Final(s));
      assert Clash(rows[i], rows[|s.atSave.chunks| + n]);
    }
  }

  /** After a committed run every hash of the document is in the table. */
  lemma CommittedHashesKnown(p: Profile, r: Run, k: nat)
    requires IsRun(p, r) && r.committed && AnswersKnown(r) && k < |r.raw|
    ensures r.raw[k].hash in Table(After(r))
  {
    var h := r.raw[k].hash;
    if h in r.found {
      UpsertAllKeepsId(r.atSave.vectors, r.vectors, h);
    } else {
      var i := ToEmbedHolds(r.raw, r.found, k);
      UpsertAllKeys(r.atSave.vectors, r.vectors, h);
      assert r.vectors[i] in r.vectors;
    }
  }

  /** A later lookup of the same texts misses only hashes whose rows it lost. */
  lemma LaterLookup(p: Profile, r: Run, s: Run, k: nat)
    requires IsRun(p, r) && IsRun(p, s) && SameTexts(r.raw, s.raw)
    requires r.committed && AnswersKnown(r) && Grows(After(r), s.before) && k < |s.raw|
    ensures s.raw[k].hash in s.found || s.raw[k].hash in s.lost
  {
    CommittedHashesKnown(p, r, k);
    assert SameText(r.raw[k], s.raw[k]);
    assert s.raw[k] in s.raw;
    assert s.raw[k].hash in ChunkHashes(s.raw);
    if s.raw[k].hash !in s.lost {
      assert s.raw[k].hash in Table(s.before).Keys * ChunkHashes(s.raw) - s.lost;
    }
  }

  lemma GrowsThrough(a: Database, b: Database, c: Database)
    requires Grows(a, b) && Grows(b, c)
    ensures Grows(a, c)
  {
  }

  /** When a second run over a document commits as well: every position the first run gave
      a row was a duplicate there, fails the quality filter, and had its row lost in the
      second lookup. */
  lemma SecondCommit(p: Profile, r: Run, s: Run, k: nat)
    requires IsRun(p, r) && IsRun(p, s) && SameDocument(r.raw, s.raw)
    requires r.committed && AnswersKnown(r) && Grows(After(r), s.before)
    requires s.committed && Saves(p, r, k)
    ensures r.raw[k].hash in r.found && !Keeps(p, r.raw[k]) && r.raw[k].hash in s.lost
  {
    GrowsThrough(After(r), s.before, s.atSave);
    assert SameChunk(r.raw[k], s.raw[k]);
    if Saves(p, s, k) {
      NotBoth(p, r, s, k);
    }
    SameDocumentSameTexts(r.raw, s.raw);
    LaterLookup(p, r, s, k);
  }

  /** Redelivery has one effect: once a run has committed rows for a document, no later run
      over it commits, as long as the later lookup loses no row. */
  lemma EffectOnce(p: Profile, r: Run, s: Run)
    requires IsRun(p, r) && IsRun(p, s) && SameDocument(r.raw, s.raw)
    requires r.committed && Final(r) != [] && AnswersKnown(r) && Grows(After(r), s.before)
    requires s.lost == {}
    ensures !s.committed
  {
    var k := SavedRowFrom(p, r, 0);
    if s.committed {
      SecondCommit(p, r, s, k);
    }
  }

  /** A later complete lookup knows every chunk of a committed text, so a rerun offers all
      of them again as duplicates, those the quality filter dropped included. */
  lemma RerunOffersEverything(p: Profile, r: Run, s: Run)
    requires IsRun(p, r) && IsRun(p, s) && SameTexts(r.raw, s.raw)
    requires r.committed && AnswersKnown(r) && Grows(After(r), s.before) && s.lost == {}
    ensures s.vectors == [] && s.enriched == []
    ensures Final(s) == Duplicates(s.raw, s.found) && |Final(s)| == |r.raw|
  {
    forall k: nat | k < |s.raw| ensures s.raw[k].hash in s.found {
      LaterLookup(p, r, s, k);
    }
    AllDuplicates(s.raw, s.found);
    PartitionConserves(s.raw, s.found);
    KeptInOrder(p, ToEmbed(s.raw, s.found));
  }

  lemma {:induction false} AllDuplicates(raw: seq<Chunk>, found: map<string, UUID>)
    requires forall k: nat | k < |raw| :: raw[k].hash in found
    ensures ToEmbed(raw, found) == []
  {
    if raw != [] {
      AllDuplicates(raw[..|raw| - 1], found);
    }
  }

  /** One effect needs a stable document id. An event whose id does not parse gets a random
      one per delivery: its keys are then free, and every redelivery that meets no fault
      commits another full copy of the document. */
  lemma FreshIdCommitsAgain(p: Profile, r: Run, s: Run)
    requires IsRun(p, r) && IsRun(p, s) && SameTexts(r.raw, s.raw)
    requires r.committed && AnswersKnown(r) && Grows(After(r), s.before) && s.lost == {}
    requires Consistent(s.atSave) && UniqueRows(s.raw)
    requires forall k | 0 <= k < |s.raw| :: NoClashWith(s.atSave.chunks, s.raw[k])
    ensures s.committed <==> NoFault(s.faults, 0, |r.raw|) && NoneDangles(s)
    ensures s.committed ==> |After(s).chunks| == |s.atSave.chunks| + |r.raw|
  {
    RerunOffersEverything(p, r, s);
    CommitsExactly(p, s);
    DuplicatesFree(s);
  }

  lemma DuplicatesFree(s: Run)
    requires Final(s) == Duplicates(s.raw, s.found)
    requires forall k | 0 <= k < |s.raw| :: NoClashWith(s.atSave.chunks, s.raw[k])
    ensures KeysFree(s)
  {
    forall m: nat | m < |Final(s)| ensures NoClashWith(s.atSave.chunks, Final(s)[m]) {
      var k := DuplicatesFrom(s.raw, s.found, m);
      assert NoClashWith(s.atSave.chunks, s.raw[k]);
    }
  }

  // ---------------------------------------------------------------- whole sequences

  /** Each run starts on tables that have grown out of what the earlier ones left. */
  ghost predicate Linked(runs: seq<Run>) {
    && (forall i | 0 <= i < |runs| :: DistinctIds(runs[i].vectors))
    && forall i, j | 0 <= i < j < |runs| :: Grows(After(runs[i]), runs[j].before)
  }

  ghost predicate AllRuns(p: Profile, runs: seq<Run>, batch: UUID -> set<string>) {
    forall i | 0 <= i < |runs| :: IsRun(p, runs[i]) && BatchedRun(runs[i], batch)
  }

  ghost predicate CommitsRows(r: Run) {
    r.committed && Final(r) != []
  }

  /** Of any number of runs over one document at most one commits rows, and after it none
      commits at all, as long as the later lookups lose no row: failed runs, stale answers and
      wrong pairs do not matter. */
  lemma AtMostOneEffect(p: Profile, runs: seq<Run>, batch: UUID -> set<string>, i: nat, j: nat)
    requires Linked(runs) && AllRuns(p, runs, batch) && i < j < |runs|
    requires SameDocument(runs[i].raw, runs[j].raw) && CommitsRows(runs[i]) && runs[j].lost == {}
    ensures !runs[j].committed
  {
    CommittedAnswersKnown(p, runs[i], batch);
    EffectOnce(p, runs[i], runs[j]);
  }

  // -------------------------------------------------------------- poisoned caches

  /** A duplicate that names an id which is no row, and none of this run's new vectors,
      makes the save fail. */
  lemma DanglingAnswerAborts(p: Profile, r: Run, k: nat)
    requires IsRun(p, r) && k < |r.raw| && r.raw[k].hash in r.found
    requires r.found[r.raw[k].hash] !in Ids(r.atSave.vectors)
    requires forall v | v in r.vectors :: v.id != r.found[r.raw[k].hash]
    ensures !r.committed
  {
    var m := DuplicatesHold(r.raw, r.found, k);
    var id := r.found[r.raw[k].hash];
    assert Final(r)[m].vectorId == id;
    if r.committed {
      SavedAsIs(r.atSave, r.vectors, Final(r), m);
      SavedReference(r.atSave, r.vectors, Final(r), m);
      UpsertAllForeignId(r.atSave.vectors, r.vectors, id);
    }
  }

  /** A cached id that never became a row dooms every run over a document with that hash for
      as long as the cache holds it. */
  lemma PoisonedCacheAborts(p: Profile, s: Run, k: nat)
    requires IsRun(p, s) && k < |s.raw| && s.raw[k].hash in s.memory
    requires s.memory[s.raw[k].hash] !in Ids(s.atSave.vectors)
    requires forall v | v in s.vectors :: v.id != s.memory[s.raw[k].hash]
    ensures !s.committed
  {
    var h := s.raw[k].hash;
    assert s.raw[k] in s.raw;
    assert h in Restrict(s.memory, ChunkHashes(s.raw));
    DanglingAnswerAborts(p, s, k);
  }

  /** So a save that fails once, for whatever passing reason, keeps failing: the pairs it
      registered stay in memory, redelivery finds them, and its rows dangle. */
  lemma FailedSaveRepeats(p: Profile, r: Run, s: Run, j: nat)
    requires IsRun(p, r) && IsRun(p, s) && SameDocument(r.raw, s.raw)
    requires j < |r.enriched| && j < |r.vectors|
    requires var h := r.enriched[j].hash; h in s.memory && s.memory[h] == r.vectors[j].id
    requires r.vectors[j].id !in Ids(s.atSave.vectors) && forall v | v in s.vectors :: v.id != r.vectors[j].id
    ensures !s.committed
  {
    var i := KeptOrigin(p, r, j);
    var k := ToEmbedFrom(r.raw, r.found, i);
    assert SameChunk(r.raw[k], s.raw[k]);
    PoisonedCacheAborts(p, s, k);
  }
}
