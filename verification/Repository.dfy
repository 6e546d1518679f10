/** The vectors and chunks tables with their constraints, the two statements SaveBulk
    issues, and SaveBulk itself (vector_repository.go, 02_vectors_and_chunks.sql). */
module Repository {
  import opened Domain

  const BATCH_SIZE: nat := 400

  datatype VectorRow = VectorRow(id: UUID, embedding: seq<real>)

  /** vectors is keyed by its unique hash column; chunks lists the chunk rows. */
  datatype Database = Database(vectors: map<string, VectorRow>, chunks: seq<Chunk>)

  /** Which round trips to the server fail while a bulk save runs; a batch is named by the
      offset of its first row. */
  datatype SaveFaults = SaveFaults(begin: bool, vectorBatches: set<nat>, chunkBatches: set<nat>, commit: bool)

  function Ids(t: map<string, VectorRow>): set<UUID> {
    set h | h in t :: t[h].id
  }

  /** The hash-to-id view of the vectors table, which the caches mirror. */
  function Table(db: Database): map<string, UUID> {
    map h | h in db.vectors :: db.vectors[h].id
  }

  ghost predicate PrimaryKey(t: map<string, VectorRow>) {
    forall g, h | g in t && h in t && t[g].id == t[h].id :: g == h
  }

  /** Both uniqueness constraints of the chunks table: id, and (document_id, chunk_index). */
  ghost predicate UniqueRows(rows: seq<Chunk>) {
    forall i, j | 0 <= i < j < |rows| :: !Clash(rows[i], rows[j])
  }

  ghost predicate Clash(a: Chunk, b: Chunk) {
    a.id == b.id || (a.documentId == b.documentId && a.index == b.index)
  }

  /** The foreign key from chunks to vectors. */
  ghost predicate ForeignKey(t: map<string, VectorRow>, rows: seq<Chunk>) {
    forall c | c in rows :: c.vectorId in Ids(t)
  }

  /** What the schema guarantees of every committed state. */
  ghost predicate Consistent(db: Database) {
    PrimaryKey(db.vectors) && UniqueRows(db.chunks) && ForeignKey(db.vectors, db.chunks)
  }

  /** What the pipeline wants on top: a chunk row names the vector of its own hash. */
  ghost predicate Faithful(db: Database) {
    forall c | c in db.chunks :: RowIsFaithful(db.vectors, c)
  }

  ghost predicate RowIsFaithful(t: map<string, VectorRow>, c: Chunk) {
    c.hash in t && t[c.hash].id == c.vectorId
  }

  /** No id stands under another hash than the one it was generated for. */
  ghost predicate Owned(t: map<string, VectorRow>, owner: UUID -> string) {
    forall h | h in t :: owner(t[h].id) == h
  }

  /** With a row comes the whole batch its id was generated with: a save brings all hashes of
      its vectors into the table, or none. */
  ghost predicate WholeBatches(t: map<string, VectorRow>, batch: UUID -> set<string>) {
    forall h, g | h in t && g in batch(t[h].id) :: g in t
  }

  /** Rows are only ever added, and a hash keeps its id. */
  ghost predicate Grows(before: Database, after: Database) {
    && Submap(Table(before), Table(after))
    && (forall c | c in before.chunks :: c in after.chunks)
  }

  // ---------------------------------------------------- INSERT INTO vectors ...

  /** INSERT ... ON CONFLICT (hash) DO UPDATE for one row: the id of an existing hash stays. */
  function Upsert(t: map<string, VectorRow>, v: Vector): map<string, VectorRow> {
    t[v.hash := VectorRow(if v.hash in t then t[v.hash].id else v.id, v.embedding)]
  }

  function UpsertAll(t: map<string, VectorRow>, vs: seq<Vector>): map<string, VectorRow> {
    if vs == [] then t else Upsert(UpsertAll(t, vs[..|vs| - 1]), vs[|vs| - 1])
  }

  /** One multi-row statement. The server rejects it when two of its rows share a hash
      (a row may be touched once per command) or a new row reuses an existing id. */
  function UpsertStatement(t: map<string, VectorRow>, vs: seq<Vector>): Option<map<string, VectorRow>> {
    if vs == [] then Some(t)
    else
      var v := vs[|vs| - 1];
      match UpsertStatement(t, vs[..|vs| - 1])
      case None => None
      case Some(u) =>
        if (exists w | w in vs[..|vs| - 1] :: w.hash == v.hash) || (v.hash !in u && v.id in Ids(u)) then None
        else Some(Upsert(u, v))
  }

  /** Vector i is the first of the list with its hash. */
  ghost predicate First(vs: seq<Vector>, i: int) {
    0 <= i < |vs| && forall j | 0 <= j < i :: vs[j].hash != vs[i].hash
  }

  function Hashes(vs: seq<Vector>): set<string> {
    set v | v in vs :: v.hash
  }

  lemma HashesCover(vs: seq<Vector>, i: nat, end: nat)
    requires i <= end <= |vs|
    ensures forall k | 0 <= k < end - i :: vs[i..end][k].hash in Hashes(vs)
  {
  }

  ghost predicate DistinctIds(vs: seq<Vector>) {
    forall i, j | 0 <= i < j < |vs| :: vs[i].id != vs[j].id
  }

  ghost predicate DistinctHashes(vs: seq<Vector>) {
    forall i, j | 0 <= i < j < |vs| :: vs[i].hash != vs[j].hash
  }

  /** Rows i and j of the list fall into one statement and carry one hash. */
  ghost predicate Repeat(vs: seq<Vector>, i: int, j: int) {
    0 <= i < j < |vs| && i / BATCH_SIZE == j / BATCH_SIZE && vs[i].hash == vs[j].hash
  }

  /** Row i would insert a new hash under an id that is already taken. */
  ghost predicate TakenId(t: map<string, VectorRow>, vs: seq<Vector>, i: int) {
    First(vs, i) && vs[i].hash !in t && vs[i].id in Ids(t)
  }

  /** A vector list the server accepts in batches of 400: no hash twice inside a batch,
      and no new hash under an id that is already taken. */
  ghost predicate VectorsAccepted(t: map<string, VectorRow>, vs: seq<Vector>) {
    (forall i, j :: !Repeat(vs, i, j)) && (forall i :: !TakenId(t, vs, i))
  }

  /** The hashes in the table after a list of upserts are the old ones and the list's. */
  lemma {:induction false} UpsertAllKeys(t: map<string, VectorRow>, vs: seq<Vector>, h: string)
    ensures h in UpsertAll(t, vs) <==> h in t || Carries(vs, h)
  {
    if vs != [] {
      var n := |vs| - 1;
      UpsertAllKeys(t, vs[..n], h);
      assert vs == vs[..n] + [vs[n]];
    }
  }

  ghost predicate Carries(vs: seq<Vector>, h: string) {
    exists v :: v in vs && v.hash == h
  }

  /** A hash that was in the table keeps its id through any list of upserts. */
  lemma {:induction false} UpsertAllKeepsId(t: map<string, VectorRow>, vs: seq<Vector>, h: string)
    requires h in t
    ensures h in UpsertAll(t, vs) && UpsertAll(t, vs)[h].id == t[h].id
  {
    if vs != [] {
      UpsertAllKeepsId(t, vs[..|vs| - 1], h);
    }
  }

  /** A new hash gets the id of the first vector that carries it. */
  lemma {:induction false} UpsertAllNewId(t: map<string, VectorRow>, vs: seq<Vector>, i: int)
    requires First(vs, i) && vs[i].hash !in t
    ensures vs[i].hash in UpsertAll(t, vs) && UpsertAll(t, vs)[vs[i].hash].id == vs[i].id
  {
    var n := |vs| - 1;
    var init := vs[..n];
    if i < n {
      assert First(init, i) by {
        assert forall j | 0 <= j < i :: init[j] == vs[j];
      }
      UpsertAllNewId(t, init, i);
    } else {
      UpsertAllKeys(t, init, vs[n].hash);
      assert !Carries(init, vs[n].hash);
    }
  }

  /** The last vector that carries a hash supplies its embedding. */
  lemma {:induction false} UpsertAllEmbedding(t: map<string, VectorRow>, vs: seq<Vector>, i: nat)
    requires i < |vs| && forall j | i < j < |vs| :: vs[j].hash != vs[i].hash
    ensures vs[i].hash in UpsertAll(t, vs) && UpsertAll(t, vs)[vs[i].hash].embedding == vs[i].embedding
  {
    if i < |vs| - 1 {
      assert vs[|vs| - 1].hash != vs[i].hash;
      UpsertAllEmbedding(t, vs[..|vs| - 1], i);
    }
  }

  /** Rows of hashes outside the list are untouched. */
  lemma {:induction false} UpsertAllFrame(t: map<string, VectorRow>, vs: seq<Vector>, h: string)
    requires h in t && !Carries(vs, h)
    ensures h in UpsertAll(t, vs) && UpsertAll(t, vs)[h] == t[h]
  {
    if vs != [] {
      var n := |vs| - 1;
      assert vs[n] in vs;
      assert forall v | v in vs[..n] :: v in vs;
      UpsertAllFrame(t, vs[..n], h);
    }
  }

  lemma UpsertIds(t: map<string, VectorRow>, v: Vector)
    ensures Ids(Upsert(t, v)) == Ids(t) + if v.hash in t then {} else {v.id}
  {
    var u := Upsert(t, v);
    forall h | h in t ensures t[h].id in Ids(u) {
      assert u[h].id == t[h].id;
    }
    assert u[v.hash].id in Ids(u);
  }

  /** Ids outside the list are in the table afterwards exactly when they were before. */
  lemma {:induction false} UpsertAllForeignId(t: map<string, VectorRow>, vs: seq<Vector>, id: UUID)
    requires forall v | v in vs :: v.id != id
    ensures id in Ids(UpsertAll(t, vs)) <==> id in Ids(t)
  {
    if vs != [] {
      var n := |vs| - 1;
      UpsertAllForeignId(t, vs[..n], id);
      assert vs[n] in vs;
      UpsertIds(UpsertAll(t, vs[..n]), vs[n]);
    }
  }

  /** Every hash of the list has a first carrier. */
  lemma {:induction false} FirstExists(vs: seq<Vector>, i: int)
    requires 0 <= i < |vs|
    ensures exists k :: First(vs, k) && vs[k].hash == vs[i].hash
    decreases i
  {
    if !First(vs, i) {
      var j :| 0 <= j < i && vs[j].hash == vs[i].hash;
      FirstExists(vs, j);
    }
  }

  lemma FirstInPrefix(vs: seq<Vector>, k: nat, i: int)
    requires 0 <= i < k <= |vs|
    ensures First(vs[..k], i) <==> First(vs, i)
  {
  }

  lemma {:induction false} UpsertAllSplit(t: map<string, VectorRow>, a: seq<Vector>, b: seq<Vector>)
    ensures UpsertAll(t, a + b) == UpsertAll(UpsertAll(t, a), b)
    decreases |b|
  {
    if b == [] {
      assert a + b == a;
    } else {
      var n := |b| - 1;
      assert (a + b)[..|a + b| - 1] == a + b[..n];
      UpsertAllSplit(t, a, b[..n]);
    }
  }

  /** The primary key survives one upsert that does not reuse an id. */
  lemma UpsertKeepsPrimaryKey(t: map<string, VectorRow>, v: Vector)
    requires PrimaryKey(t) && (v.hash in t || v.id !in Ids(t))
    ensures PrimaryKey(Upsert(t, v))
  {
  }

  /** The primary key survives every accepted list of upserts. */
  lemma {:induction false} UpsertAllKeepsPrimaryKey(t: map<string, VectorRow>, vs: seq<Vector>)
    requires PrimaryKey(t) && DistinctIds(vs) && VectorsAccepted(t, vs)
    ensures PrimaryKey(UpsertAll(t, vs))
  {
    if vs != [] {
      var n := |vs| - 1;
      var init, v := vs[..n], vs[n];
      AcceptedPrefix(t, vs, n);
      UpsertAllKeepsPrimaryKey(t, init);
      UpsertAllForeignId(t, init, v.id);
      UpsertAllKeys(t, init, v.hash);
      assert Carries(init, v.hash) || First(vs, n);
      assert !TakenId(t, vs, n);
      UpsertKeepsPrimaryKey(UpsertAll(t, init), v);
    }
  }

  lemma AcceptedPrefix(t: map<string, VectorRow>, vs: seq<Vector>, k: nat)
    requires VectorsAccepted(t, vs) && k <= |vs|
    ensures VectorsAccepted(t, vs[..k])
  {
    var p := vs[..k];
    forall i, j ensures !Repeat(p, i, j) {
      assert !Repeat(vs, i, j);
    }
    forall i ensures !TakenId(t, p, i) {
      if First(p, i) {
        FirstInPrefix(vs, k, i);
        assert !TakenId(t, vs, i);
      }
    }
  }

  // ----------------------------------------------------- batches of statements

  /** When a single statement goes through. */
  ghost predicate StatementOk(t: map<string, VectorRow>, vs: seq<Vector>) {
    && DistinctHashes(vs)
    && forall i | 0 <= i < |vs| && vs[i].hash !in t :: vs[i].id !in Ids(t)
  }

  /** An accepted statement equals row-by-row upserts. */
  lemma {:induction false} StatementSucceeds(t: map<string, VectorRow>, vs: seq<Vector>)
    requires DistinctIds(vs) && StatementOk(t, vs)
    ensures UpsertStatement(t, vs) == Some(UpsertAll(t, vs))
  {
    if vs != [] {
      var n := |vs| - 1;
      var init, v := vs[..n], vs[n];
      StatementSucceeds(t, init);
      UpsertAllForeignId(t, init, v.id);
      UpsertAllKeys(t, init, v.hash);
    }
  }

  lemma {:induction false} StatementFails(t: map<string, VectorRow>, vs: seq<Vector>)
    requires DistinctIds(vs) && !StatementOk(t, vs)
    ensures UpsertStatement(t, vs) == None
  {
    if vs != [] {
      var n := |vs| - 1;
      var init, v := vs[..n], vs[n];
      if StatementOk(t, init) {
        StatementSucceeds(t, init);
        UpsertAllForeignId(t, init, v.id);
        UpsertAllKeys(t, init, v.hash);
        LastRowBreaksStatement(t, vs);
      } else {
        StatementFails(t, init);
      }
    }
  }

  lemma LastRowBreaksStatement(t: map<string, VectorRow>, vs: seq<Vector>)
    requires vs != [] && !StatementOk(t, vs) && StatementOk(t, vs[..|vs| - 1])
    ensures var v, init := vs[|vs| - 1], vs[..|vs| - 1];
            Carries(init, v.hash) || (v.hash !in t && v.id in Ids(t))
  {
  }

  /** One batch of the save loop goes through exactly when the longer prefix is accepted. */
  lemma BatchStep(t: map<string, VectorRow>, vs: seq<Vector>, i: nat, end: nat)
    requires DistinctIds(vs)
    requires i < end <= |vs| && i % BATCH_SIZE == 0 && end <= i + BATCH_SIZE
    requires VectorsAccepted(t, vs[..i])
    ensures UpsertStatement(UpsertAll(t, vs[..i]), vs[i..end]) ==
            if VectorsAccepted(t, vs[..end]) then Some(UpsertAll(t, vs[..end])) else None
  {
    DistinctIdsSlice(vs, i, end);
    if VectorsAccepted(t, vs[..end]) {
      BatchSucceeds(t, vs, i, end);
      StatementSucceeds(UpsertAll(t, vs[..i]), vs[i..end]);
      UpsertAllSplit(t, vs[..i], vs[i..end]);
      assert vs[..i] + vs[i..end] == vs[..end];
    } else {
      BatchRejected(t, vs, i, end);
      StatementFails(UpsertAll(t, vs[..i]), vs[i..end]);
    }
  }

  lemma DistinctIdsSlice(vs: seq<Vector>, i: nat, end: nat)
    requires DistinctIds(vs) && i <= end <= |vs|
    ensures DistinctIds(vs[i..end])
  {
  }

  /** Position k of the batch, seen from the table as the earlier batches left it. */
  lemma BatchRow(t: map<string, VectorRow>, vs: seq<Vector>, i: nat, k: nat)
    requires DistinctIds(vs) && i <= k < |vs|
    ensures vs[k].hash in UpsertAll(t, vs[..i]) <==> vs[k].hash in t || Carries(vs[..i], vs[k].hash)
    ensures vs[k].id in Ids(UpsertAll(t, vs[..i])) <==> vs[k].id in Ids(t)
  {
    UpsertAllKeys(t, vs[..i], vs[k].hash);
    UpsertAllForeignId(t, vs[..i], vs[k].id);
  }

  /** None of the batches before offset i fails. */
  ghost predicate NoneBefore(failing: set<nat>, i: nat, n: nat) {
    forall k | k in failing && k % BATCH_SIZE == 0 :: i <= k || n <= k
  }

  lemma NoneBeforeNext(failing: set<nat>, i: nat, n: nat)
    requires i % BATCH_SIZE == 0 && NoneBefore(failing, i, n) && i !in failing
    ensures NoneBefore(failing, i + BATCH_SIZE, n) && (i + BATCH_SIZE) % BATCH_SIZE == 0
  {
  }

  lemma SameBatch(i: nat, j: nat, end: nat)
    requires i % BATCH_SIZE == 0 && i <= j < end <= i + BATCH_SIZE
    ensures j / BATCH_SIZE == i / BATCH_SIZE
  {
  }

  lemma BatchSucceeds(t: map<string, VectorRow>, vs: seq<Vector>, i: nat, end: nat)
    requires DistinctIds(vs)
    requires i < end <= |vs| && i % BATCH_SIZE == 0 && end <= i + BATCH_SIZE
    requires VectorsAccepted(t, vs[..end])
    ensures StatementOk(UpsertAll(t, vs[..i]), vs[i..end])
  {
    var u, batch, q := UpsertAll(t, vs[..i]), vs[i..end], vs[..end];
    forall j, k | 0 <= j < k < |batch| ensures batch[j].hash != batch[k].hash {
      SameBatch(i, i + j, end);
      SameBatch(i, i + k, end);
      assert !Repeat(q, i + j, i + k);
    }
    forall k | 0 <= k < |batch| && batch[k].hash !in u ensures batch[k].id !in Ids(u) {
      BatchRow(t, vs, i, i + k);
      FirstInBatch(vs, i, end, i + k);
      assert !TakenId(t, q, i + k);
    }
  }

  lemma FirstInBatch(vs: seq<Vector>, i: nat, end: nat, k: nat)
    requires i <= k < end <= |vs|
    requires DistinctHashes(vs[i..end]) && !Carries(vs[..i], vs[k].hash)
    ensures First(vs[..end], k)
  {
  }

  lemma BatchRejected(t: map<string, VectorRow>, vs: seq<Vector>, i: nat, end: nat)
    requires DistinctIds(vs)
    requires i < end <= |vs| && i % BATCH_SIZE == 0 && end <= i + BATCH_SIZE
    requires VectorsAccepted(t, vs[..i]) && !VectorsAccepted(t, vs[..end])
    ensures !StatementOk(UpsertAll(t, vs[..i]), vs[i..end])
  {
    var q := vs[..end];
    if j, k :| Repeat(q, j, k) {
      RepeatInsideBatch(t, vs, i, end, j, k);
    } else {
      var k :| TakenId(t, q, k);
      TakenIdInBatch(t, vs, i, end, k);
    }
  }

  lemma RepeatInsideBatch(t: map<string, VectorRow>, vs: seq<Vector>, i: nat, end: nat, j: nat, k: nat)
    requires i < end <= |vs| && i % BATCH_SIZE == 0 && VectorsAccepted(t, vs[..i])
    requires k < end && Repeat(vs[..end], j, k)
    ensures !DistinctHashes(vs[i..end])
  {
    assert !Repeat(vs[..i], j, k);
    if k >= i {
      assert j >= i;
      assert vs[i..end][j - i] == vs[j] && vs[i..end][k - i] == vs[k];
    }
  }

  lemma TakenIdInBatch(t: map<string, VectorRow>, vs: seq<Vector>, i: nat, end: nat, k: nat)
    requires DistinctIds(vs) && i < end <= |vs| && VectorsAccepted(t, vs[..i])
    requires TakenId(t, vs[..end], k)
    ensures !StatementOk(UpsertAll(t, vs[..i]), vs[i..end])
  {
    var p, q := vs[..i], vs[..end];
    assert !TakenId(t, p, k);
    if k < i {
      assert p == q[..i];
      FirstInPrefix(q, i, k);
    } else {
      BatchRow(t, vs, i, k);
      assert !Carries(p, vs[k].hash) by {
        assert forall j | 0 <= j < i :: q[j] == p[j];
      }
      assert vs[i..end][k - i] == vs[k];
    }
  }

  // ----------------------------------------------------------------- SaveBulk

  lemma FirstsPresent(t: map<string, VectorRow>, vs: seq<Vector>)
    ensures forall i | First(vs, i) :: vs[i].hash in UpsertAll(t, vs)
  {
  }

  /** The id rewriting table: each vector that was the first with its hash, to the id the
      vectors table u really holds for that hash. */
  ghost function Remap(vs: seq<Vector>, u: map<string, VectorRow>): map<UUID, UUID>
    requires DistinctIds(vs)
    requires forall i | First(vs, i) :: vs[i].hash in u
  {
    map i | 0 <= i < |vs| && First(vs, i) :: vs[i].id := u[vs[i].hash].id
  }

  function Rewrite(c: Chunk, m: map<UUID, UUID>): Chunk {
    if c.vectorId in m then c.(vectorId := m[c.vectorId]) else c
  }

  function RewriteAll(cs: seq<Chunk>, m: map<UUID, UUID>): (r: seq<Chunk>)
    ensures |r| == |cs|
  {
    seq(|cs|, i requires 0 <= i < |cs| => Rewrite(cs[i], m))
  }

  ghost function SavedRows(db: Database, vs: seq<Vector>, cs: seq<Chunk>): (r: seq<Chunk>)
    requires DistinctIds(vs)
    ensures |r| == |cs|
  {
    FirstsPresent(db.vectors, vs);
    RewriteAll(cs, Remap(vs, UpsertAll(db.vectors, vs)))
  }

  /** The state a committed save leaves. */
  ghost function AfterSave(db: Database, vs: seq<Vector>, cs: seq<Chunk>): Database
    requires DistinctIds(vs)
  {
    Database(UpsertAll(db.vectors, vs), db.chunks + SavedRows(db, vs, cs))
  }

  /** The saves the constraints allow, stated on the initial table and the arguments. */
  ghost predicate Accepts(db: Database, vs: seq<Vector>, cs: seq<Chunk>)
    requires DistinctIds(vs)
  {
    && VectorsAccepted(db.vectors, vs)
    && (cs == [] || UniqueRows(db.chunks + SavedRows(db, vs, cs)))
    && ForeignKey(UpsertAll(db.vectors, vs), SavedRows(db, vs, cs))
  }

  /** No batch of a list of n rows is among the failing ones. */
  ghost predicate NoneFails(failing: set<nat>, n: nat) {
    forall k | k in failing && k % BATCH_SIZE == 0 :: n <= k
  }

  ghost predicate NoFault(f: SaveFaults, vectors: nat, chunks: nat) {
    && !f.begin && !f.commit
    && NoneFails(f.vectorBatches, vectors)
    && NoneFails(f.chunkBatches, chunks)
  }

  /** INSERT INTO chunks: all rows of the statement or none. */
  predicate InsertAllowed(t: map<string, VectorRow>, rows: seq<Chunk>, batch: seq<Chunk>) {
    && (forall i, j | 0 <= i < j < |rows + batch| ::
          (rows + batch)[i].id != (rows + batch)[j].id
          && !((rows + batch)[i].documentId == (rows + batch)[j].documentId
               && (rows + batch)[i].index == (rows + batch)[j].index))
    && (forall c | c in batch :: c.vectorId in Ids(t))
  }

  /** ids names, for hash h, the id the table holds. */
  ghost predicate Reported(ids: map<string, UUID>, t: map<string, VectorRow>, h: string) {
    h in ids && h in t && ids[h] == t[h].id
  }

  /** The ids of the first n hashes of the list are those of the table. */
  ghost predicate AllReported(ids: map<string, UUID>, t: map<string, VectorRow>, vs: seq<Vector>, n: nat)
    requires n <= |vs|
  {
    forall k | 0 <= k < n :: Reported(ids, t, vs[k].hash)
  }

  /** The first n vectors are in, and ids names the table's id for each of their hashes. */
  ghost predicate Upserted(
    t: map<string, VectorRow>, vs: seq<Vector>, tx: map<string, VectorRow>, ids: map<string, UUID>, n: nat)
  {
    && n <= |vs| && tx == UpsertAll(t, vs[..n]) && VectorsAccepted(t, vs[..n])
    && ids.Keys == Hashes(vs) && AllReported(ids, tx, vs, n)
  }

  lemma AllUpserted(t: map<string, VectorRow>, vs: seq<Vector>, tx: map<string, VectorRow>, ids: map<string, UUID>)
    requires Upserted(t, vs, tx, ids, |vs|)
    ensures tx == UpsertAll(t, vs) && VectorsAccepted(t, vs)
    ensures forall h | h in ids :: Reported(ids, tx, h)
  {
    assert vs[..|vs|] == vs;
    forall h | h in ids ensures Reported(ids, tx, h) {
      var k :| 0 <= k < |vs| && vs[k].hash == h;
    }
  }

  /** Reading one statement's rows extends the reported prefix by that batch. */
  lemma NextReported(
    t: map<string, VectorRow>, vs: seq<Vector>, i: nat, end: nat, ids: map<string, UUID>, r: map<string, UUID>)
    requires i <= end <= |vs| && AllReported(ids, UpsertAll(t, vs[..i]), vs, i)
    requires AllReported(r, UpsertAll(t, vs[..end]), vs[i..end], end - i)
    requires forall h | h in ids && !Carries(vs[i..end], h) :: h in r && r[h] == ids[h]
    ensures AllReported(r, UpsertAll(t, vs[..end]), vs, end)
  {
    assert vs[..i] + vs[i..end] == vs[..end];
    UpsertAllSplit(t, vs[..i], vs[i..end]);
    forall k | 0 <= k < end ensures Reported(r, UpsertAll(t, vs[..end]), vs[k].hash) {
      var h := vs[k].hash;
      if Carries(vs[i..end], h) {
        var m :| 0 <= m < end - i && vs[i..end][m].hash == h;
      } else if k < i {
        UpsertAllKeepsId(UpsertAll(t, vs[..i]), vs[i..end], h);
      } else {
        assert vs[i..end][k - i] in vs[i..end];
      }
    }
  }

  /** After a statement for vs[i..end], every one of its hashes is in the table. */
  lemma BatchInTable(t: map<string, VectorRow>, vs: seq<Vector>, i: nat, end: nat)
    requires i <= end <= |vs|
    ensures forall k | 0 <= k < end - i :: vs[i..end][k].hash in UpsertAll(t, vs[..end])
  {
    forall k | 0 <= k < end - i ensures vs[i..end][k].hash in UpsertAll(t, vs[..end]) {
      UpsertAllKeys(t, vs[..end], vs[i + k].hash);
      assert vs[..end][i + k] in vs[..end];
    }
  }

  /** A map that sends exactly the first carriers to the table's ids is the rewriting table. */
  lemma RemapUnique(m: map<UUID, UUID>, vs: seq<Vector>, u: map<string, VectorRow>)
    requires DistinctIds(vs)
    requires forall i | First(vs, i) :: vs[i].hash in u && vs[i].id in m && m[vs[i].id] == u[vs[i].hash].id
    requires forall id | id in m :: exists i :: First(vs, i) && vs[i].id == id
    ensures m == Remap(vs, u)
  {
  }

  lemma BatchStops(t: map<string, VectorRow>, vs: seq<Vector>, i: nat, end: nat, failing: set<nat>)
    requires i % BATCH_SIZE == 0 && i < |vs| && end <= |vs|
    requires i in failing || !VectorsAccepted(t, vs[..end])
    ensures !VectorsAccepted(t, vs) || !NoneFails(failing, |vs|)
  {
    if VectorsAccepted(t, vs) {
      AcceptedPrefix(t, vs, end);
    }
  }

  class VectorRepository {
    var db: Database

    constructor ()
      ensures db == Database(map[], [])
    {
      db := Database(map[], []);
    }

    /** SELECT hash, id ... WHERE hash = ANY(hashes). The row loop never looks at rows.Err,
        so the rows of the hashes in lost can go missing without an error. */
    method FindVectorIdsByHashesBatch(hashes: seq<string>, fails: bool, lost: set<string>)
      returns (r: Option<map<string, UUID>>)
      ensures r.None? <==> hashes != [] && fails
      ensures r.Some? ==> r.value == Restrict(Table(db), (set h | h in hashes) - lost)
    {
      if hashes == [] {
        return Some(map[]);
      }
      if fails {
        return None;
      }
      var result: map<string, UUID> := map[];
      for i := 0 to |hashes|
        invariant result == Restrict(Table(db), (set h | h in hashes[..i]) - lost)
      {
        var h := hashes[i];
        if h in db.vectors && h !in lost {
          result := result[h := db.vectors[h].id];
        }
        assert hashes[..i + 1] == hashes[..i] + [h];
      }
      assert hashes[..|hashes|] == hashes;
      return Some(result);
    }

    /** SELECT hash, id ... ORDER BY created_at DESC LIMIT n. recent are the hashes of the
        rows that arrive: at most n, the newest first, fewer when the answer breaks off. */
    method FetchRecentVectorHashes(limit: int, fails: bool, recent: set<string>) returns (r: Option<map<string, UUID>>)
      requires |recent| <= Max(limit, 0)
      ensures r.None? <==> limit > 0 && fails
      ensures r.Some? ==> Submap(r.value, Table(db)) && r.value.Keys <= recent
      ensures r.Some? ==>
                forall h | h in recent && h in db.vectors && h != "" && db.vectors[h].id != NIL :: h in r.value
    {
      if limit <= 0 {
        return Some(map[]);
      }
      if fails {
        return None;
      }
      var result, rows: set<string> := map[], recent;
      while rows != {}
        invariant rows <= recent && result.Keys <= recent - rows && Submap(result, Table(db))
        invariant forall h | h in recent - rows && h in db.vectors && h != "" && db.vectors[h].id != NIL :: h in result
        decreases rows
      {
        var h :| h in rows;
        if h in db.vectors && h != "" && db.vectors[h].id != NIL {
          result := result[h := db.vectors[h].id];
        }
        rows := rows - {h};
      }
      return Some(result);
    }

    /** One transaction: either every vector and chunk of the call is in the tables, with
        ids rewritten, or nothing changed. It commits exactly when no round trip fails and
        the constraints accept the call; a call without vectors and chunks is a no-op. */
    method SaveBulk(vectors: seq<Vector>, chunks: seq<Chunk>, faults: SaveFaults) returns (ok: bool)
      requires DistinctIds(vectors)
      modifies this
      ensures ok <==> (vectors == [] && chunks == [])
                      || (NoFault(faults, |vectors|, |chunks|) && Accepts(old(db), vectors, chunks))
      ensures db == if ok then AfterSave(old(db), vectors, chunks) else old(db)
    {
      if vectors == [] && chunks == [] {
        return true;
      }
      if faults.begin {
        return false;
      }
      var accepted, tx, actual := SaveVectors(vectors, faults);
      if !accepted {
        return false;
      }
      FirstsPresent(db.vectors, vectors);
      var vectorIdMap := BuildIdMap(vectors, tx, actual);
      var inserted, rows := SaveChunks(tx, chunks, vectorIdMap, faults);
      if !inserted || faults.commit {
        return false;
      }
      db := Database(tx, rows);
      return true;
    }

    /** The vector loop: batches of 400 upserts inside the transaction, and the id the
        server reports for every hash. */
    method SaveVectors(vectors: seq<Vector>, faults: SaveFaults)
      returns (ok: bool, tx: map<string, VectorRow>, actual: map<string, UUID>)
      requires DistinctIds(vectors)
      ensures ok <==> VectorsAccepted(db.vectors, vectors) && NoneFails(faults.vectorBatches, |vectors|)
      ensures ok ==> tx == UpsertAll(db.vectors, vectors)
      ensures ok ==> actual.Keys == Hashes(vectors)
      ensures ok ==> forall h | h in actual :: Reported(actual, tx, h)
    {
      actual := LastIds(vectors);
      tx := db.vectors;
      var i, done := 0, 0;
      while i < |vectors|
        invariant i % BATCH_SIZE == 0 && done == Min(i, |vectors|)
        invariant Upserted(db.vectors, vectors, tx, actual, done)
        invariant NoneBefore(faults.vectorBatches, i, |vectors|)
      {
        var end := Min(i + BATCH_SIZE, |vectors|);
        ok, tx, actual := SaveBatch(vectors, i, end, tx, actual, i in faults.vectorBatches);
        if !ok {
          BatchStops(db.vectors, vectors, i, end, faults.vectorBatches);
          return;
        }
        NoneBeforeNext(faults.vectorBatches, i, |vectors|);
        i, done := i + BATCH_SIZE, end;
      }
      AllUpserted(db.vectors, vectors, tx, actual);
      ok := true;
    }

    /** One iteration of the vector loop: the statement for vectors[i..end] and its rows. */
    method SaveBatch(vectors: seq<Vector>, i: nat, end: nat, tx0: map<string, VectorRow>,
                     ids: map<string, UUID>, fails: bool)
      returns (ok: bool, tx: map<string, VectorRow>, actual: map<string, UUID>)
      requires DistinctIds(vectors)
      requires i < end <= |vectors| && i % BATCH_SIZE == 0 && end <= i + BATCH_SIZE
      requires Upserted(db.vectors, vectors, tx0, ids, i)
      ensures ok <==> !fails && VectorsAccepted(db.vectors, vectors[..end])
      ensures ok ==> Upserted(db.vectors, vectors, tx, actual, end)
    {
      tx, actual := tx0, ids;
      BatchStep(db.vectors, vectors, i, end);
      var u := if fails then None else UpsertStatement(tx0, vectors[i..end]);
      ok := u.Some?;
      if ok {
        tx := u.value;
        BatchInTable(db.vectors, vectors, i, end);
        HashesCover(vectors, i, end);
        actual := RecordIds(vectors[i..end], tx, ids);
        NextReported(db.vectors, vectors, i, end, ids, actual);
      }
    }

    /** Before any statement ran: each hash with the id of its last carrier. */
    method LastIds(vectors: seq<Vector>) returns (ids: map<string, UUID>)
      ensures ids.Keys == Hashes(vectors)
    {
      ids := map[];
      for i := 0 to |vectors|
        invariant ids.Keys == Hashes(vectors[..i])
      {
        ids := ids[vectors[i].hash := vectors[i].id];
        assert vectors[..i + 1] == vectors[..i] + [vectors[i]];
      }
      assert vectors[..|vectors|] == vectors;
    }

    /** Reads the RETURNING rows of one statement. */
    method RecordIds(batch: seq<Vector>, tx: map<string, VectorRow>, ids: map<string, UUID>)
      returns (r: map<string, UUID>)
      requires forall k | 0 <= k < |batch| :: batch[k].hash in tx
      requires forall k | 0 <= k < |batch| :: batch[k].hash in ids
      ensures r.Keys == ids.Keys
      ensures AllReported(r, tx, batch, |batch|)
      ensures forall h | h in ids && !Carries(batch, h) :: r[h] == ids[h]
    {
      r := ids;
      for j := 0 to |batch|
        invariant r.Keys == ids.Keys
        invariant forall k | 0 <= k < j :: Reported(r, tx, batch[k].hash)
        invariant forall h | h in ids && !Carries(batch, h) :: r[h] == ids[h]
      {
        var hash, id := batch[j].hash, tx[batch[j].hash].id;
        assert batch[j] in batch;
        if hash in r && r[hash] != id {
          r := r[hash := id];
        }
      }
    }

    /** For every hash, the first vector that carries it is sent to the id in the table. */
    method BuildIdMap(vectors: seq<Vector>, tx: map<string, VectorRow>, actual: map<string, UUID>)
      returns (m: map<UUID, UUID>)
      requires DistinctIds(vectors)
      requires forall i | First(vectors, i) :: vectors[i].hash in tx
      requires actual.Keys == Hashes(vectors)
      requires forall h | h in actual :: Reported(actual, tx, h)
      ensures m == Remap(vectors, tx)
    {
      m := map[];
      var pending := actual.Keys;
      while pending != {}
        invariant pending <= actual.Keys
        invariant forall i | First(vectors, i) && vectors[i].hash !in pending ::
                    vectors[i].id in m && m[vectors[i].id] == tx[vectors[i].hash].id
        invariant forall id | id in m :: exists i :: First(vectors, i) && vectors[i].id == id
        decreases pending
      {
        var hash :| hash in pending;
        var i := FirstCarrier(vectors, hash);
        m := m[vectors[i].id := actual[hash]];
        pending := pending - {hash};
      }
      RemapUnique(m, vectors, tx);
    }

    /** The inner scan of the id map: stops at the first vector with the hash. */
    method FirstCarrier(vectors: seq<Vector>, hash: string) returns (i: nat)
      requires exists v :: v in vectors && v.hash == hash
      ensures First(vectors, i) && vectors[i].hash == hash
      ensures forall j | First(vectors, j) && vectors[j].hash == hash :: j == i
    {
      i := 0;
      while vectors[i].hash != hash
        invariant 0 <= i < |vectors|
        invariant forall j | 0 <= j < i :: vectors[j].hash != hash
        invariant exists j :: i <= j < |vectors| && vectors[j].hash == hash
        decreases |vectors| - i
      {
        i := i + 1;
      }
    }

    /** The chunk loop: batches of 400 rows, each with its vector id rewritten. */
    method SaveChunks(tx: map<string, VectorRow>, chunks: seq<Chunk>, m: map<UUID, UUID>, faults: SaveFaults)
      returns (ok: bool, rows: seq<Chunk>)
      ensures ok <==> (chunks == [] || UniqueRows(db.chunks + RewriteAll(chunks, m)))
                      && ForeignKey(tx, RewriteAll(chunks, m))
                      && NoneFails(faults.chunkBatches, |chunks|)
      ensures ok ==> rows == db.chunks + RewriteAll(chunks, m)
    {
      rows := db.chunks;
      ghost var all := RewriteAll(chunks, m);
      var i := 0;
      ghost var done: nat := 0;
      while i < |chunks|
        invariant i % BATCH_SIZE == 0 && done == Min(i, |chunks|)
        invariant Inserted(tx, db.chunks, all, rows, done)
        invariant NoneBefore(faults.chunkBatches, i, |chunks|)
      {
        var end := Min(i + BATCH_SIZE, |chunks|);
        ok, rows := InsertBatch(tx, chunks, m, i, end, rows, i in faults.chunkBatches);
        if !ok {
          return;
        }
        NoneBeforeNext(faults.chunkBatches, i, |chunks|);
        i := i + BATCH_SIZE;
        done := end;
      }
      assert all[..done] == all;
      ok := true;
    }

    /** One iteration of the chunk loop: rewrites chunks[i..end] and inserts them. */
    method InsertBatch(tx: map<string, VectorRow>, chunks: seq<Chunk>, m: map<UUID, UUID>, i: nat, end: nat,
                       rows0: seq<Chunk>, fails: bool)
      returns (ok: bool, rows: seq<Chunk>)
      requires i < end <= |chunks|
      requires Inserted(tx, db.chunks, RewriteAll(chunks, m), rows0, i)
      ensures ok ==> !fails && Inserted(tx, db.chunks, RewriteAll(chunks, m), rows, end)
      ensures !ok ==> fails || !UniqueRows(db.chunks + RewriteAll(chunks, m)) || !ForeignKey(tx, RewriteAll(chunks, m))
    {
      rows := rows0;
      ghost var all := RewriteAll(chunks, m);
      var batch: seq<Chunk> := [];
      for j := i to end
        invariant batch == all[i..j]
      {
        batch := batch + [Rewrite(chunks[j], m)];
      }
      if fails {
        return false, rows;
      }
      if InsertAllowed(tx, rows, batch) {
        InsertedNext(tx, db.chunks, all, rows, i, end);
        ok, rows := true, rows + batch;
      } else {
        RejectedInsert(tx, db.chunks, all, i, end);
        ok := false;
      }
    }
  }

  /** The first n rows of the list are in, and broke no constraint. */
  ghost predicate Inserted(t: map<string, VectorRow>, before: seq<Chunk>, all: seq<Chunk>, rows: seq<Chunk>, n: nat) {
    && n <= |all| && rows == before + all[..n]
    && (n > 0 ==> UniqueRows(rows)) && ForeignKey(t, all[..n])
  }

  lemma InsertedNext(t: map<string, VectorRow>, before: seq<Chunk>, all: seq<Chunk>, rows: seq<Chunk>, i: nat, end: nat)
    requires i < end <= |all| && Inserted(t, before, all, rows, i) && InsertAllowed(t, rows, all[i..end])
    ensures Inserted(t, before, all, rows + all[i..end], end)
  {
  }

  /** A rejected statement means the whole list breaks a constraint. */
  lemma RejectedInsert(t: map<string, VectorRow>, rows: seq<Chunk>, all: seq<Chunk>, i: nat, end: nat)
    requires i < end <= |all|
    requires !InsertAllowed(t, rows + all[..i], all[i..end])
    ensures !UniqueRows(rows + all) || !ForeignKey(t, all)
  {
    var part, batch := rows + all[..i], all[i..end];
    assert part + batch == rows + all[..end];
    if c :| c in batch && c.vectorId !in Ids(t) {
      assert c in all;
    } else {
      var j, k :| 0 <= j < k < |part + batch| && Clash((part + batch)[j], (part + batch)[k]);
      assert (part + batch)[j] == (rows + all)[j] && (part + batch)[k] == (rows + all)[k];
    }
  }
}
