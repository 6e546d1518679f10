/** What the contract of SaveBulk means for the tables: which calls commit, and what a
    committed call leaves behind. */
module SaveLaws {
  import opened Domain
  import opened Repository

  /** None of the new vectors' ids is in use: they were generated for this call. */
  ghost predicate FreshIds(t: map<string, VectorRow>, vs: seq<Vector>) {
    forall i | 0 <= i < |vs| :: vs[i].id !in Ids(t)
  }

  /** The id is that of the first vector with its hash. */
  ghost predicate NamesFirst(vs: seq<Vector>, id: UUID) {
    exists i :: First(vs, i) && vs[i].id == id
  }

  /** No statement of the list touches a hash twice. */
  ghost predicate NoRepeats(vs: seq<Vector>) {
    forall i, j :: !Repeat(vs, i, j)
  }

  /** A chunk that names the first carrier of a hash is saved under the table's id for it. */
  lemma SavedUnderTableId(db: Database, vs: seq<Vector>, cs: seq<Chunk>, k: nat, i: int)
    requires DistinctIds(vs) && k < |cs| && First(vs, i) && vs[i].id == cs[k].vectorId
    ensures vs[i].hash in UpsertAll(db.vectors, vs)
    ensures SavedRows(db, vs, cs)[k] == cs[k].(vectorId := UpsertAll(db.vectors, vs)[vs[i].hash].id)
  {
    FirstsPresent(db.vectors, vs);
  }

  /** A chunk that names no first carrier is saved as it is. */
  lemma SavedAsIs(db: Database, vs: seq<Vector>, cs: seq<Chunk>, k: nat)
    requires DistinctIds(vs) && k < |cs|
    requires forall i | First(vs, i) :: vs[i].id != cs[k].vectorId
    ensures SavedRows(db, vs, cs)[k] == cs[k]
  {
  }

  /** Saving touches nothing but the vector id. */
  lemma SavedElsewhereEqual(db: Database, vs: seq<Vector>, cs: seq<Chunk>, k: nat)
    requires DistinctIds(vs) && k < |cs|
    ensures SavedRows(db, vs, cs)[k] == cs[k].(vectorId := SavedRows(db, vs, cs)[k].vectorId)
  {
  }

  /** The id the table holds after the save for the hash of one of its vectors: the old id
      whenever the hash was known, else the vector's own. */
  lemma FinalId(t: map<string, VectorRow>, vs: seq<Vector>, i: int)
    requires First(vs, i)
    ensures vs[i].hash in UpsertAll(t, vs)
    ensures UpsertAll(t, vs)[vs[i].hash].id == if vs[i].hash in t then t[vs[i].hash].id else vs[i].id
  {
    if vs[i].hash in t {
      UpsertAllKeepsId(t, vs, vs[i].hash);
    } else {
      UpsertAllNewId(t, vs, i);
    }
  }

  lemma IdOfRow(t: map<string, VectorRow>, h: string)
    requires h in t
    ensures t[h].id in Ids(t)
  {
  }

  lemma OldIdsStay(t: map<string, VectorRow>, vs: seq<Vector>)
    ensures Ids(t) <= Ids(UpsertAll(t, vs))
  {
    forall h | h in t ensures t[h].id in Ids(UpsertAll(t, vs)) {
      UpsertAllKeepsId(t, vs, h);
    }
  }

  /** A saved row satisfies the foreign key exactly when the chunk named a row of the old
      table or a vector of the call that is the first with its hash. */
  lemma ReferenceKnown(db: Database, vs: seq<Vector>, cs: seq<Chunk>, k: nat)
    requires DistinctIds(vs) && FreshIds(db.vectors, vs) && k < |cs|
    ensures SavedRows(db, vs, cs)[k].vectorId in Ids(UpsertAll(db.vectors, vs)) <==>
              cs[k].vectorId in Ids(db.vectors) || NamesFirst(vs, cs[k].vectorId)
  {
    if i: int :| First(vs, i) && vs[i].id == cs[k].vectorId {
      SavedUnderTableId(db, vs, cs, k, i);
      IdOfRow(UpsertAll(db.vectors, vs), vs[i].hash);
    } else {
      SavedAsIs(db, vs, cs, k);
      if i: nat :| i < |vs| && vs[i].id == cs[k].vectorId {
        LaterCarrierNotInserted(db.vectors, vs, i);
      } else {
        UpsertAllForeignId(db.vectors, vs, cs[k].vectorId);
      }
    }
  }

  lemma RewriteKeepsKeys(db: Database, vs: seq<Vector>, cs: seq<Chunk>)
    requires DistinctIds(vs)
    ensures UniqueRows(db.chunks + SavedRows(db, vs, cs)) <==> UniqueRows(db.chunks + cs)
  {
    var rows := SavedRows(db, vs, cs);
    forall i | 0 <= i < |cs| ensures SameKeys(rows[i], cs[i]) {
      SavedElsewhereEqual(db, vs, cs, i);
    }
    KeysDecide(db.chunks + rows, db.chunks + cs);
  }

  /** The columns that uniqueness looks at. */
  ghost predicate SameKeys(c: Chunk, d: Chunk) {
    c.id == d.id && c.documentId == d.documentId && c.index == d.index
  }

  lemma KeysDecide(p: seq<Chunk>, q: seq<Chunk>)
    requires |p| == |q| && forall i | 0 <= i < |p| :: SameKeys(p[i], q[i])
    ensures UniqueRows(p) <==> UniqueRows(q)
  {
  }

  /** Every chunk names a row of the table or a first carrier of the call. */
  ghost predicate ReferencesKnown(db: Database, vs: seq<Vector>, cs: seq<Chunk>) {
    forall k | 0 <= k < |cs| :: cs[k].vectorId in Ids(db.vectors) || NamesFirst(vs, cs[k].vectorId)
  }

  /** Which calls the constraints accept, ids being fresh: exactly those in which no
      statement repeats a hash, the chunk keys are unused, and every chunk names a row of the
      table or the first vector of some hash. */
  lemma AcceptsExactly(db: Database, vs: seq<Vector>, cs: seq<Chunk>)
    requires DistinctIds(vs) && FreshIds(db.vectors, vs)
    ensures Accepts(db, vs, cs) <==>
              NoRepeats(vs) && (cs == [] || UniqueRows(db.chunks + cs)) && ReferencesKnown(db, vs, cs)
  {
    var u, rows := UpsertAll(db.vectors, vs), SavedRows(db, vs, cs);
    RewriteKeepsKeys(db, vs, cs);
    forall k: nat | k < |cs|
      ensures rows[k].vectorId in Ids(u) <==> cs[k].vectorId in Ids(db.vectors) || NamesFirst(vs, cs[k].vectorId)
    {
      ReferenceKnown(db, vs, cs, k);
    }
    ForeignKeyByIndex(u, rows);
  }

  lemma ForeignKeyByIndex(t: map<string, VectorRow>, rows: seq<Chunk>)
    ensures ForeignKey(t, rows) <==> forall k | 0 <= k < |rows| :: rows[k].vectorId in Ids(t)
  {
    if ForeignKey(t, rows) {
      forall k | 0 <= k < |rows| ensures rows[k].vectorId in Ids(t) {
        assert rows[k] in rows;
      }
    }
  }

  /** A hash that occurs twice never commits once every vector has its chunk: inside one
      batch the statement fails, across batches the later id is dropped by the remap and
      its chunk dangles. */
  lemma DuplicateHashAborts(db: Database, vs: seq<Vector>, cs: seq<Chunk>)
    requires DistinctIds(vs) && FreshIds(db.vectors, vs)
    requires forall i | 0 <= i < |vs| :: exists c :: c in cs && c.vectorId == vs[i].id
    requires Accepts(db, vs, cs)
    ensures DistinctHashes(vs)
  {
    forall i | 0 <= i < |vs| ensures First(vs, i) {
      var k :| 0 <= k < |cs| && cs[k].vectorId == vs[i].id;
      AcceptedNamesFirst(db, vs, cs, i, k);
    }
    FirstsAreDistinct(vs);
  }

  lemma SavedReference(db: Database, vs: seq<Vector>, cs: seq<Chunk>, k: nat)
    requires DistinctIds(vs) && k < |cs| && Accepts(db, vs, cs)
    ensures SavedRows(db, vs, cs)[k].vectorId in Ids(UpsertAll(db.vectors, vs))
  {
  }

  /** In an accepted call a chunk that names one of the vectors names the first of its hash:
      the row of a later carrier would dangle. */
  lemma AcceptedNamesFirst(db: Database, vs: seq<Vector>, cs: seq<Chunk>, i: nat, k: nat)
    requires DistinctIds(vs) && FreshIds(db.vectors, vs) && Accepts(db, vs, cs)
    requires i < |vs| && k < |cs| && cs[k].vectorId == vs[i].id
    ensures First(vs, i)
  {
    ReferenceKnown(db, vs, cs, k);
    SavedReference(db, vs, cs, k);
    var j :| First(vs, j) && vs[j].id == cs[k].vectorId;
    assert i == j;
  }

  lemma FirstsAreDistinct(vs: seq<Vector>)
    requires forall i | 0 <= i < |vs| :: First(vs, i)
    ensures DistinctHashes(vs)
  {
    forall i, j | 0 <= i < j < |vs| ensures vs[i].hash != vs[j].hash {
      assert First(vs, j);
    }
  }

  /** The id of a vector that is not the first with its hash never enters the table. */
  lemma {:induction false} LaterCarrierNotInserted(t: map<string, VectorRow>, vs: seq<Vector>, i: nat)
    requires DistinctIds(vs) && FreshIds(t, vs)
    requires i < |vs| && !First(vs, i)
    ensures vs[i].id !in Ids(UpsertAll(t, vs))
  {
    var n := |vs| - 1;
    var init := vs[..n];
    UpsertIds(UpsertAll(t, init), vs[n]);
    if i < n {
      FirstInPrefix(vs, n, i);
      LaterCarrierNotInserted(t, init, i);
    } else {
      var j :| 0 <= j < i && vs[j].hash == vs[i].hash;
      assert init[j] in init;
      UpsertAllKeys(t, init, vs[n].hash);
      UpsertAllForeignId(t, init, vs[n].id);
    }
  }

  /** A committed save only adds rows and keeps every id. */
  lemma SaveGrows(db: Database, vs: seq<Vector>, cs: seq<Chunk>)
    requires DistinctIds(vs)
    ensures Grows(db, AfterSave(db, vs, cs))
  {
    forall h | h in db.vectors
      ensures h in Table(AfterSave(db, vs, cs)) && Table(AfterSave(db, vs, cs))[h] == Table(db)[h]
    {
      UpsertAllKeepsId(db.vectors, vs, h);
    }
  }

  /** A committed save leaves the primary key, both uniqueness constraints and the foreign
      key intact, for any number of batches and however the ids were renamed. */
  lemma SaveKeepsConsistent(db: Database, vs: seq<Vector>, cs: seq<Chunk>)
    requires Consistent(db) && DistinctIds(vs) && Accepts(db, vs, cs)
    ensures Consistent(AfterSave(db, vs, cs))
  {
    UpsertAllKeepsPrimaryKey(db.vectors, vs);
    OldIdsStay(db.vectors, vs);
    if cs == [] {
      assert db.chunks + SavedRows(db, vs, cs) == db.chunks;
    }
  }

  /** The chunk came in naming a vector of the call, or a row of the table, that carries the
      chunk's own hash. */
  ghost predicate NamesOwnHash(db: Database, vs: seq<Vector>, c: Chunk) {
    || (exists i :: 0 <= i < |vs| && vs[i].id == c.vectorId && vs[i].hash == c.hash)
    || (c.hash in db.vectors && db.vectors[c.hash].id == c.vectorId)
  }

  /** Which saved rows name the vector of their own hash: exactly those of chunks that came
      in naming their own hash. Renaming an id neither breaks nor repairs a row. */
  lemma FaithfulExactly(db: Database, vs: seq<Vector>, cs: seq<Chunk>, k: nat)
    requires Consistent(db) && DistinctIds(vs) && FreshIds(db.vectors, vs) && Accepts(db, vs, cs)
    requires k < |cs|
    ensures RowIsFaithful(UpsertAll(db.vectors, vs), SavedRows(db, vs, cs)[k]) <==> NamesOwnHash(db, vs, cs[k])
  {
    if NamesOwnHash(db, vs, cs[k]) {
      SavedFaithfully(db, vs, cs, k);
    }
    if RowIsFaithful(UpsertAll(db.vectors, vs), SavedRows(db, vs, cs)[k]) {
      FaithfulNamesOwnHash(db, vs, cs, k);
    }
  }

  lemma SavedFaithfully(db: Database, vs: seq<Vector>, cs: seq<Chunk>, k: nat)
    requires DistinctIds(vs) && FreshIds(db.vectors, vs) && Accepts(db, vs, cs)
    requires k < |cs| && NamesOwnHash(db, vs, cs[k])
    ensures RowIsFaithful(UpsertAll(db.vectors, vs), SavedRows(db, vs, cs)[k])
  {
    if i: int :| 0 <= i < |vs| && vs[i].id == cs[k].vectorId && vs[i].hash == cs[k].hash {
      AcceptedNamesFirst(db, vs, cs, i, k);
      SavedUnderTableId(db, vs, cs, k, i);
    } else {
      IdOfRow(db.vectors, cs[k].hash);
      SavedAsIs(db, vs, cs, k);
      UpsertAllKeepsId(db.vectors, vs, cs[k].hash);
    }
  }

  lemma FaithfulNamesOwnHash(db: Database, vs: seq<Vector>, cs: seq<Chunk>, k: nat)
    requires PrimaryKey(db.vectors) && DistinctIds(vs) && VectorsAccepted(db.vectors, vs)
    requires k < |cs| && RowIsFaithful(UpsertAll(db.vectors, vs), SavedRows(db, vs, cs)[k])
    ensures NamesOwnHash(db, vs, cs[k])
  {
    var u, h := UpsertAll(db.vectors, vs), cs[k].hash;
    SavedElsewhereEqual(db, vs, cs, k);
    if i: int :| First(vs, i) && vs[i].id == cs[k].vectorId {
      SavedUnderTableId(db, vs, cs, k, i);
      UpsertAllKeepsPrimaryKey(db.vectors, vs);
    } else {
      SavedAsIs(db, vs, cs, k);
      UpsertAllKeys(db.vectors, vs, h);
      if h in db.vectors {
        UpsertAllKeepsId(db.vectors, vs, h);
      } else {
        var j :| 0 <= j < |vs| && vs[j].hash == h;
        FirstExists(vs, j);
        var i :| First(vs, i) && vs[i].hash == h;
        FinalId(db.vectors, vs, i);
      }
    }
  }

  // -------------------------------------------------------------------- ownership

  ghost predicate VectorsOwned(vs: seq<Vector>, owner: UUID -> string) {
    forall i | 0 <= i < |vs| :: owner(vs[i].id) == vs[i].hash
  }

  /** A chunk names an id that was generated for the chunk's own hash. */
  ghost predicate ChunkOwned(c: Chunk, owner: UUID -> string) {
    owner(c.vectorId) == c.hash
  }

  lemma {:induction false} UpsertKeepsOwned(t: map<string, VectorRow>, vs: seq<Vector>, owner: UUID -> string)
    requires Owned(t, owner) && VectorsOwned(vs, owner)
    ensures Owned(UpsertAll(t, vs), owner)
  {
    if vs != [] {
      var n := |vs| - 1;
      assert forall i | 0 <= i < n :: vs[..n][i] == vs[i];
      UpsertKeepsOwned(t, vs[..n], owner);
    }
  }

  /** batch names, for each id of the call, the hashes of all its vectors. */
  ghost predicate OwnBatch(vs: seq<Vector>, batch: UUID -> set<string>) {
    forall i | 0 <= i < |vs| :: batch(vs[i].id) == Hashes(vs)
  }

  lemma UpsertKeepsBatches(t: map<string, VectorRow>, vs: seq<Vector>, batch: UUID -> set<string>)
    requires WholeBatches(t, batch) && OwnBatch(vs, batch)
    ensures WholeBatches(UpsertAll(t, vs), batch)
  {
    var u := UpsertAll(t, vs);
    forall h, g | h in u && g in batch(u[h].id) ensures g in u {
      RowOfBatch(t, vs, batch, h, g);
    }
  }

  lemma RowOfBatch(t: map<string, VectorRow>, vs: seq<Vector>, batch: UUID -> set<string>, h: string, g: string)
    requires WholeBatches(t, batch) && OwnBatch(vs, batch)
    requires h in UpsertAll(t, vs) && g in batch(UpsertAll(t, vs)[h].id)
    ensures g in UpsertAll(t, vs)
  {
    UpsertAllKeys(t, vs, g);
    if h in t {
      UpsertAllKeepsId(t, vs, h);
    } else {
      var i := NewRowVector(t, vs, h);
      assert g in Hashes(vs);
    }
  }

  /** A row that a list of upserts adds has the id of the first vector with its hash. */
  lemma NewRowVector(t: map<string, VectorRow>, vs: seq<Vector>, h: string) returns (i: nat)
    requires h in UpsertAll(t, vs) && h !in t
    ensures First(vs, i) && vs[i].hash == h && UpsertAll(t, vs)[h].id == vs[i].id
  {
    UpsertAllKeys(t, vs, h);
    var j :| 0 <= j < |vs| && vs[j].hash == h;
    FirstExists(vs, j);
    i :| First(vs, i) && vs[i].hash == h;
    UpsertAllNewId(t, vs, i);
  }

  /** Renaming sends an id to another id of the same hash. */
  lemma SavingKeepsOwner(db: Database, vs: seq<Vector>, cs: seq<Chunk>, k: nat, owner: UUID -> string)
    requires Owned(db.vectors, owner) && VectorsOwned(vs, owner) && DistinctIds(vs)
    requires k < |cs| && ChunkOwned(cs[k], owner)
    ensures ChunkOwned(SavedRows(db, vs, cs)[k], owner)
  {
    if i :| First(vs, i) && vs[i].id == cs[k].vectorId {
      UpsertKeepsOwned(db.vectors, vs, owner);
      SavedUnderTableId(db, vs, cs, k, i);
    } else {
      SavedAsIs(db, vs, cs, k);
    }
  }

  /** An accepted save whose chunks name ids of their own hash leaves every row naming the
      vector of its own hash: the foreign key lets through only ids that are rows, and an id
      is a row only under its own hash. Stale cache answers, races and renaming change
      nothing about this. */
  lemma SaveKeepsFaithful(db: Database, vs: seq<Vector>, cs: seq<Chunk>, owner: UUID -> string)
    requires Faithful(db) && Owned(db.vectors, owner) && VectorsOwned(vs, owner)
    requires DistinctIds(vs) && Accepts(db, vs, cs)
    requires forall k | 0 <= k < |cs| :: ChunkOwned(cs[k], owner)
    ensures Faithful(AfterSave(db, vs, cs)) && Owned(AfterSave(db, vs, cs).vectors, owner)
  {
    var u, rows := UpsertAll(db.vectors, vs), SavedRows(db, vs, cs);
    UpsertKeepsOwned(db.vectors, vs, owner);
    forall c | c in db.chunks ensures RowIsFaithful(u, c) {
      assert RowIsFaithful(db.vectors, c);
      UpsertAllKeepsId(db.vectors, vs, c.hash);
    }
    forall k | 0 <= k < |rows| ensures RowIsFaithful(u, rows[k]) {
      SavingKeepsOwner(db, vs, cs, k, owner);
      SavedReference(db, vs, cs, k);
    }
  }
}
