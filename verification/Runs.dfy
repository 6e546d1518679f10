/** One document's passage from hashed chunks to rows, as a relation on values, and what it
    implies: the conditions under which caches and rows stay right, and what a redelivered
    event can and cannot do (pipeline_worker.go). */
module Runs {
  import opened Domain
  import opened Repository
  import opened SaveLaws
  import opened Enrichment
  import opened Deduplicator

  /** A call of ProcessDocument that reached the save: its hashed chunks, memory and tables
      when the lookup began, the rows the lookup lost, its answers, the embeddings, the
      kept chunks, the tables when the save ran, and the save's fate. */
  datatype Run = Run(
    raw: seq<Chunk>, memory: map<string, UUID>, before: Database, lost: set<string>,
    found: map<string, UUID>, vectors: seq<Vector>, enriched: seq<Chunk>,
    atSave: Database, faults: SaveFaults, committed: bool)

  // ------------------------------------------------------------------ partition

  /** The chunks whose hash is known, pointed at the known vector. */
  function Duplicates(raw: seq<Chunk>, found: map<string, UUID>): seq<Chunk> {
    if raw == [] then []
    else
      var c := raw[|raw| - 1];
      Duplicates(raw[..|raw| - 1], found) + if c.hash in found then [c.(vectorId := found[c.hash])] else []
  }

  function ToEmbed(raw: seq<Chunk>, found: map<string, UUID>): seq<Chunk> {
    if raw == [] then []
    else
      var c := raw[|raw| - 1];
      ToEmbed(raw[..|raw| - 1], found) + if c.hash in found then [] else [c]
  }

  lemma PartitionNext(raw: seq<Chunk>, found: map<string, UUID>, i: nat)
    requires i < |raw|
    ensures var c := raw[i];
            && Duplicates(raw[..i + 1], found)
               == Duplicates(raw[..i], found) + (if c.hash in found then [c.(vectorId := found[c.hash])] else [])
            && ToEmbed(raw[..i + 1], found) == ToEmbed(raw[..i], found) + if c.hash in found then [] else [c]
  {
    assert raw[..i + 1][..i] == raw[..i];
  }

  /** Every chunk goes to exactly one side. */
  lemma {:induction false} PartitionConserves(raw: seq<Chunk>, found: map<string, UUID>)
    ensures |Duplicates(raw, found)| + |ToEmbed(raw, found)| == |raw|
  {
    if raw != [] {
      PartitionConserves(raw[..|raw| - 1], found);
    }
  }

  /** The two sides position by position: each keeps the order, the duplicates are pointed at
      the vector known for their hash, and the other chunks are as they were. */
  lemma PartitionExactly(raw: seq<Chunk>, found: map<string, UUID>) returns (known: seq<nat>, unknown: seq<nat>)
    ensures |known| == |Duplicates(raw, found)| && |unknown| == |ToEmbed(raw, found)|
    ensures forall i, j | 0 <= i < j < |known| :: known[i] < known[j]
    ensures forall i, j | 0 <= i < j < |unknown| :: unknown[i] < unknown[j]
    ensures forall m | 0 <= m < |known| :: DuplicateOf(Duplicates(raw, found)[m], raw, found, known[m])
    ensures forall m | 0 <= m < |unknown| :: unknown[m] < |raw| && ToEmbed(raw, found)[m] == raw[unknown[m]]
    ensures forall k: nat | k < |raw| ::
              (k in known <==> raw[k].hash in found) && (k in unknown <==> raw[k].hash !in found)
  {
    known, unknown := PlacesOf(raw, found, true), PlacesOf(raw, found, false);
    PlacesInOrder(raw, found, true);
    PlacesInOrder(raw, found, false);
    forall k: nat | k < |raw|
      ensures (k in known <==> raw[k].hash in found) && (k in unknown <==> raw[k].hash !in found)
    {
      PlaceListed(raw, found, true, k);
      PlaceListed(raw, found, false, k);
    }
    DuplicatesAt(raw, found);
    ToEmbedAt(raw, found);
  }

  /** Where the chunks stand whose hash is known, or is not. */
  ghost function PlacesOf(raw: seq<Chunk>, found: map<string, UUID>, known: bool): seq<nat> {
    if raw == [] then []
    else
      var n := |raw| - 1;
      PlacesOf(raw[..n], found, known) + if (raw[n].hash in found) == known then [n] else []
  }

  lemma {:induction false} PlacesInOrder(raw: seq<Chunk>, found: map<string, UUID>, known: bool)
    ensures forall m | 0 <= m < |PlacesOf(raw, found, known)| :: PlacesOf(raw, found, known)[m] < |raw|
    ensures forall i, j | 0 <= i < j < |PlacesOf(raw, found, known)| ::
              PlacesOf(raw, found, known)[i] < PlacesOf(raw, found, known)[j]
  {
    if raw != [] {
      PlacesInOrder(raw[..|raw| - 1], found, known);
    }
  }

  lemma {:induction false} PlaceListed(raw: seq<Chunk>, found: map<string, UUID>, known: bool, k: nat)
    requires k < |raw|
    ensures k in PlacesOf(raw, found, known) <==> ((raw[k].hash in found) == known)
    decreases |raw|
  {
    var n := |raw| - 1;
    var before := PlacesOf(raw[..n], found, known);
    if (raw[n].hash in found) == known {
      InAppended(before, n, k);
    }
    if k < n {
      PlaceListed(raw[..n], found, known, k);
    } else {
      PlacesInOrder(raw[..n], found, known);
    }
  }

  lemma {:induction false} DuplicatesAt(raw: seq<Chunk>, found: map<string, UUID>)
    ensures |PlacesOf(raw, found, true)| == |Duplicates(raw, found)|
    ensures forall m | 0 <= m < |Duplicates(raw, found)| ::
              DuplicateOf(Duplicates(raw, found)[m], raw, found, PlacesOf(raw, found, true)[m])
  {
    if raw != [] {
      DuplicatesAt(raw[..|raw| - 1], found);
    }
  }

  lemma {:induction false} ToEmbedAt(raw: seq<Chunk>, found: map<string, UUID>)
    ensures |PlacesOf(raw, found, false)| == |ToEmbed(raw, found)|
    ensures forall m | 0 <= m < |ToEmbed(raw, found)| ::
              PlacesOf(raw, found, false)[m] < |raw| && ToEmbed(raw, found)[m] == raw[PlacesOf(raw, found, false)[m]]
  {
    if raw != [] {
      ToEmbedAt(raw[..|raw| - 1], found);
    }
  }

  ghost predicate DuplicateOf(d: Chunk, raw: seq<Chunk>, found: map<string, UUID>, k: nat) {
    k < |raw| && raw[k].hash in found && d == raw[k].(vectorId := found[raw[k].hash])
  }

  lemma {:induction false} DuplicatesFrom(raw: seq<Chunk>, found: map<string, UUID>, m: nat) returns (k: nat)
    requires m < |Duplicates(raw, found)|
    ensures DuplicateOf(Duplicates(raw, found)[m], raw, found, k)
  {
    var n := |raw| - 1;
    if m < |Duplicates(raw[..n], found)| {
      k := DuplicatesFrom(raw[..n], found, m);
    } else {
      k := n;
    }
  }

  lemma {:induction false} DuplicatesHold(raw: seq<Chunk>, found: map<string, UUID>, k: nat) returns (m: nat)
    requires k < |raw| && raw[k].hash in found
    ensures m < |Duplicates(raw, found)| && DuplicateOf(Duplicates(raw, found)[m], raw, found, k)
  {
    var n := |raw| - 1;
    if k < n {
      m := DuplicatesHold(raw[..n], found, k);
    } else {
      m := |Duplicates(raw[..n], found)|;
    }
  }

  lemma {:induction false} ToEmbedFrom(raw: seq<Chunk>, found: map<string, UUID>, m: nat) returns (k: nat)
    requires m < |ToEmbed(raw, found)|
    ensures k < |raw| && raw[k].hash !in found && ToEmbed(raw, found)[m] == raw[k]
  {
    var n := |raw| - 1;
    if m < |ToEmbed(raw[..n], found)| {
      k := ToEmbedFrom(raw[..n], found, m);
    } else {
      k := n;
    }
  }

  lemma {:induction false} ToEmbedHolds(raw: seq<Chunk>, found: map<string, UUID>, k: nat) returns (m: nat)
    requires k < |raw| && raw[k].hash !in found
    ensures m < |ToEmbed(raw, found)| && ToEmbed(raw, found)[m] == raw[k]
  {
    var n := |raw| - 1;
    if k < n {
      m := ToEmbedHolds(raw[..n], found, k);
    } else {
      m := |ToEmbed(raw[..n], found)|;
    }
  }

  // ---------------------------------------------------------------- the whole run

  /** The kept chunks, paired with the vectors by position. */
  function Paired(enriched: seq<Chunk>, vectors: seq<Vector>): (r: seq<Chunk>)
    ensures |r| == |enriched|
  {
    seq(|enriched|, i requires 0 <= i < |enriched| => PairedAt(enriched[i], vectors, i))
  }

  function PairedAt(c: Chunk, vectors: seq<Vector>, i: nat): Chunk {
    if i < |vectors| then c.(vectorId := vectors[i].id) else c
  }

  function Final(r: Run): seq<Chunk> {
    Duplicates(r.raw, r.found) + Paired(r.enriched, r.vectors)
  }

  /** Where kept chunk j ends up in the list. */
  lemma FinalPaired(r: Run, j: nat)
    requires j < |r.enriched| <= |r.vectors|
    ensures |Duplicates(r.raw, r.found)| + j < |Final(r)|
    ensures Final(r)[|Duplicates(r.raw, r.found)| + j] == r.enriched[j].(vectorId := r.vectors[j].id)
  {
  }

  ghost function After(r: Run): Database
    requires DistinctIds(r.vectors)
  {
    if r.committed then AfterSave(r.atSave, r.vectors, Final(r)) else r.atSave
  }

  /** What holds once chunks are looked up, enriched and embedded. */
  ghost predicate IsPrepared(p: Profile, r: Run) {
    && r.raw != []
    && LookupResult(r.found, ChunkHashes(r.raw), r.lost, r.memory, Table(r.before))
    && EmbeddingsOf(r.vectors, ToEmbed(r.raw, r.found)) && DistinctIds(r.vectors)
    && IsFiltered(p, r.enriched, ToEmbed(r.raw, r.found))
  }

  /** What every call that reached the save satisfies. */
  ghost predicate IsRun(p: Profile, r: Run) {
    && IsPrepared(p, r)
    && Grows(r.before, r.atSave)
    && (r.committed <==> NoFault(r.faults, |r.vectors|, |Final(r)|) && Accepts(r.atSave, r.vectors, Final(r)))
  }

  /** What the worker puts into the caches ahead of the save. */
  ghost function Registered(r: Run): iset<Entry> {
    RegisteredUpTo(r.enriched, r.vectors, |r.enriched|)
  }

  ghost function RegisteredUpTo(enriched: seq<Chunk>, vectors: seq<Vector>, n: nat): iset<Entry> {
    iset j: nat | j < n && j < |enriched| && j < |vectors| :: Entry(enriched[j].hash, vectors[j].id)
  }

  lemma PairsFit(p: Profile, r: Run)
    requires IsPrepared(p, r)
    ensures |r.enriched| <= |r.vectors|
  {
    KeptInOrder(p, ToEmbed(r.raw, r.found));
  }

  /** Every kept chunk has a vector at its position, so the near duplicate the index
      reported, if any, never reaches a row. */
  lemma NearDuplicateIgnored(p: Profile, r: Run, j: nat, near: UUID)
    requires IsRun(p, r) && j < |r.enriched|
    ensures j < |r.vectors|
    ensures Paired(r.enriched, r.vectors)[j] == r.enriched[j].(vectorId := r.vectors[j].id)
    ensures Final(r) == Final(r.(enriched := r.enriched[j := r.enriched[j].(vectorId := near)]))
  {
    PairsFit(p, r);
    var e := r.enriched[j := r.enriched[j].(vectorId := near)];
    assert Paired(e, r.vectors) == Paired(r.enriched, r.vectors);
  }

  /** A run that reached the save has something to save. */
  lemma SomethingToSave(p: Profile, r: Run)
    requires IsPrepared(p, r)
    ensures r.vectors != [] || Final(r) != []
  {
  }

  // ------------------------------------------------------- whatever is paired with what

  /** Each kept chunk's hash is in the batch of the vector it is paired with. */
  ghost predicate KeptInBatch(enriched: seq<Chunk>, vectors: seq<Vector>, batch: UUID -> set<string>) {
    forall j | 0 <= j < |enriched| && j < |vectors| :: enriched[j].hash in batch(vectors[j].id)
  }

  /** Right or wrong, the positional pairing stays within the batch. */
  lemma PairingInBatch(
    p: Profile, cs: seq<Chunk>, vectors: seq<Vector>, enriched: seq<Chunk>, batch: UUID -> set<string>)
    requires EmbeddingsOf(vectors, cs) && IsFiltered(p, enriched, cs) && OwnBatch(vectors, batch)
    ensures KeptInBatch(enriched, vectors, batch)
  {
    KeptInOrder(p, cs);
    forall j | 0 <= j < |enriched| && j < |vectors| ensures enriched[j].hash in batch(vectors[j].id) {
      assert FilteredAt(p, enriched, cs, j);
      var at := KeptAt(p, cs)[j];
      assert vectors[at].hash == enriched[j].hash && vectors[at] in vectors;
    }
  }

  /** What is known of a run however its chunks and vectors were paired, and the runs before
      it: its ids belong to its batch, and what it found was placed. */
  ghost predicate BatchedRun(r: Run, batch: UUID -> set<string>) {
    && OwnBatch(r.vectors, batch) && WholeBatches(r.atSave.vectors, batch)
    && Batched(r.found, Table(r.atSave), batch)
  }

  /** Every run, committed or failed, leaves whole batches behind, and what it registers is
      placed. */
  lemma RunKeepsBatches(p: Profile, r: Run, batch: UUID -> set<string>)
    requires IsRun(p, r) && BatchedRun(r, batch)
    ensures WholeBatches(After(r).vectors, batch)
    ensures forall e | e in Registered(r) :: e.hash in batch(e.id)
  {
    UpsertKeepsBatches(r.atSave.vectors, r.vectors, batch);
    PairingInBatch(p, ToEmbed(r.raw, r.found), r.vectors, r.enriched, batch);
  }

  // --------------------------------------------------------- ownership: always safe

  /** The ids this run generated belong to the hashes they were generated for. */
  ghost predicate OwnIds(r: Run, owner: UUID -> string) {
    VectorsOwned(r.vectors, owner)
  }

  /** All that safety needs to know of a run: it attempted a save. */
  ghost predicate Attempted(r: Run) {
    && |r.enriched| <= |r.vectors| && DistinctIds(r.vectors)
    && (r.committed ==> Accepts(r.atSave, r.vectors, Final(r)))
  }

  lemma RunAttempted(p: Profile, r: Run)
    requires IsRun(p, r)
    ensures Attempted(r)
  {
    PairsFit(p, r);
  }

  lemma FinalOwned(r: Run, w: World, k: nat)
    requires Attempted(r) && HashCorrect(r.enriched, r.vectors) && OwnIds(r, w.owner)
    requires Owned(r.atSave.vectors, w.owner) && PendingOwned(w) && Within(r.found, Table(r.atSave), w)
    requires k < |Final(r)|
    ensures ChunkOwned(Final(r)[k], w.owner)
  {
    var n := |Duplicates(r.raw, r.found)|;
    if k < n {
      var i := DuplicatesFrom(r.raw, r.found, k);
      var h := r.raw[i].hash;
      assert Known(w, Table(r.atSave), h, r.found[h]);
    } else {
      FinalPaired(r, k - n);
    }
  }

  /** Safety of every run, committed or not, whatever was stale, evicted, raced or renamed:
      if each kept chunk met the vector of its own hash, a sound database stays sound and
      the pairs registered belong to their hashes. */
  lemma RunKeepsSound(r: Run, w: World)
    requires Attempted(r) && HashCorrect(r.enriched, r.vectors) && OwnIds(r, w.owner)
    requires DatabaseSound(r.atSave, w) && PendingOwned(w) && Within(r.found, Table(r.atSave), w)
    ensures DatabaseSound(After(r), w)
    ensures PendingOwned(WithPending(w, Registered(r)))
  {
    forall k | 0 <= k < |Final(r)| ensures ChunkOwned(Final(r)[k], w.owner) {
      FinalOwned(r, w, k);
    }
    if r.committed {
      SaveKeepsFaithful(r.atSave, r.vectors, Final(r), w.owner);
      SaveKeepsConsistent(r.atSave, r.vectors, Final(r));
    }
  }

  /** The pairing is right, and so the run safe, whenever no kept chunk follows a dropped
      one; with distinct new hashes, only then. */
  lemma PairingOfRun(p: Profile, r: Run)
    requires IsRun(p, r)
    ensures KeptPrefix(p, ToEmbed(r.raw, r.found)) ==> HashCorrect(r.enriched, r.vectors)
    ensures DistinctHashes(r.vectors) ==>
              (HashCorrect(r.enriched, r.vectors) <==> KeptPrefix(p, ToEmbed(r.raw, r.found)))
  {
    var cs := ToEmbed(r.raw, r.found);
    if DistinctHashes(r.vectors) {
      assert DistinctChunkHashes(cs);
    }
    PairingExact(p, cs, r.vectors, r.enriched);
  }

  /** Row k is a duplicate's, or a kept chunk's whose vector has its hash. */
  ghost predicate RightRow(r: Run, k: nat) {
    var n := |Duplicates(r.raw, r.found)|;
    n <= k && k - n < |r.enriched| && k - n < |r.vectors| ==> r.vectors[k - n].hash == r.enriched[k - n].hash
  }

  /** A chunk that names vector j of the call, under a fresh id, names its own hash exactly
      when the vector has it. */
  lemma NamesThisVector(db: Database, vs: seq<Vector>, c: Chunk, j: nat)
    requires DistinctIds(vs) && FreshIds(db.vectors, vs) && j < |vs| && c.vectorId == vs[j].id
    ensures NamesOwnHash(db, vs, c) <==> vs[j].hash == c.hash
  {
  }

  lemma RowRight(p: Profile, r: Run, k: nat)
    requires IsRun(p, r) && FreshIds(r.atSave.vectors, r.vectors)
    requires Submap(r.found, Table(r.atSave)) && k < |Final(r)|
    ensures NamesOwnHash(r.atSave, r.vectors, Final(r)[k]) <==> RightRow(r, k)
  {
    var n := |Duplicates(r.raw, r.found)|;
    if k < n {
      DuplicateRight(r.raw, r.found, r.atSave, r.vectors, k);
    } else {
      PairsFit(p, r);
      FinalPaired(r, k - n);
      NamesThisVector(r.atSave, r.vectors, Final(r)[k], k - n);
    }
  }

  lemma DuplicateRight(raw: seq<Chunk>, found: map<string, UUID>, db: Database, vs: seq<Vector>, k: nat)
    requires Submap(found, Table(db)) && k < |Duplicates(raw, found)|
    ensures NamesOwnHash(db, vs, Duplicates(raw, found)[k])
  {
  }

  /** Row by row: given right lookup answers, a committed run's rows all name the vector of
      their own hash exactly when the pairing was right. */
  lemma RowsExactly(p: Profile, r: Run)
    requires IsRun(p, r) && r.committed
    requires Consistent(r.atSave) && Faithful(r.atSave) && FreshIds(r.atSave.vectors, r.vectors)
    requires Submap(r.found, Table(r.atSave))
    ensures Faithful(After(r)) <==> HashCorrect(r.enriched, r.vectors)
  {
    PairsFit(p, r);
    forall k: nat | k < |Final(r)|
      ensures RowIsFaithful(After(r).vectors, SavedRows(r.atSave, r.vectors, Final(r))[k]) <==> RightRow(r, k)
    {
      FaithfulExactly(r.atSave, r.vectors, Final(r), k);
      RowRight(p, r, k);
    }
    RowsOfBoth(r);
    AllRight(r);
  }

  lemma AllRight(r: Run)
    requires |r.enriched| <= |r.vectors|
    ensures HashCorrect(r.enriched, r.vectors) <==> forall k: nat | k < |Final(r)| :: RightRow(r, k)
  {
    var n := |Duplicates(r.raw, r.found)|;
    if forall k: nat | k < |Final(r)| :: RightRow(r, k) {
      forall j | 0 <= j < |r.enriched| ensures r.vectors[j].hash == r.enriched[j].hash {
        assert RightRow(r, n + j);
      }
    }
  }

  lemma RowsOfBoth(r: Run)
    requires DistinctIds(r.vectors) && r.committed && Faithful(r.atSave)
    ensures Faithful(After(r)) <==>
              forall k: nat | k < |Final(r)| ::
                RowIsFaithful(After(r).vectors, SavedRows(r.atSave, r.vectors, Final(r))[k])
  {
    var u, rows := After(r).vectors, SavedRows(r.atSave, r.vectors, Final(r));
    forall c | c in r.atSave.chunks ensures RowIsFaithful(u, c) {
      assert RowIsFaithful(r.atSave.vectors, c);
      UpsertAllKeepsId(r.atSave.vectors, r.vectors, c.hash);
    }
    if Faithful(After(r)) {
      forall k: nat | k < |rows| ensures RowIsFaithful(u, rows[k]) {
        assert rows[k] in After(r).chunks;
      }
    }
  }
}
