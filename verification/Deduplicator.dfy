/** The three-tier hash lookup: a bounded first-in first-out cache in memory, a lossy map
    in Redis, and the vectors table (deduplicator.go, redis_repository.go). */
module Deduplicator {
  import opened Domain
  import opened Repository

  datatype Entry = Entry(hash: string, id: UUID)

  /** How the network treats one batch lookup: the keys Redis answers for, whether the
      query fails, the rows a broken result stream swallows, the keys Redis stores. */
  datatype LookupIO = LookupIO(
    redisAnswers: set<string>, queryFails: bool, rowsLost: set<string>, redisStores: set<string>)

  // ------------------------------------------------------- the bounded cache

  /** cache and order hold exactly the last insertions of the log, oldest first. */
  ghost predicate IsSuffix(cache: map<string, UUID>, order: seq<string>, log: seq<Entry>) {
    && |order| <= |log|
    && Distinct(order)
    && cache.Keys == Elements(order)
    && forall k | 0 <= k < |order| :: Holds(cache, order[k], log[|log| - |order| + k])
  }

  /** Only the bound makes the cache forget: it holds capacity insertions, or all of them. */
  ghost predicate IsFifo(cache: map<string, UUID>, order: seq<string>, log: seq<Entry>, capacity: nat) {
    IsSuffix(cache, order, log) && |order| == Min(|log|, capacity)
  }

  ghost predicate Holds(cache: map<string, UUID>, h: string, e: Entry) {
    h == e.hash && h in cache && cache[h] == e.id
  }

  function Elements(order: seq<string>): set<string> {
    set h | h in order
  }

  lemma ElementsSnoc(order: seq<string>, h: string)
    ensures Elements(order + [h]) == Elements(order) + {h}
  {
  }

  lemma {:induction false} DistinctCount(order: seq<string>)
    requires Distinct(order)
    ensures |Elements(order)| == |order|
  {
    if order != [] {
      var n := |order| - 1;
      DistinctCount(order[..n]);
      assert order == order[..n] + [order[n]];
      assert Elements(order) == Elements(order[..n]) + {order[n]};
    }
  }

  /** An entry survives exactly capacity - 1 further insertions. */
  lemma SurvivesInsertions(cache: map<string, UUID>, order: seq<string>, log: seq<Entry>, capacity: nat, p: nat)
    requires IsFifo(cache, order, log, capacity)
    requires p < |log| && forall q | p < q < |log| :: log[q].hash != log[p].hash
    ensures |log| - p <= capacity <==> log[p].hash in cache
    ensures |log| - p <= capacity ==> cache[log[p].hash] == log[p].id
  {
    var base := |log| - |order|;
    if |log| - p <= capacity {
      assert Holds(cache, order[p - base], log[p]);
    } else {
      forall k | 0 <= k < |order| ensures order[k] != log[p].hash {
        assert Holds(cache, order[k], log[base + k]);
      }
    }
  }

  /** A pair inserted at p is what memory answers from then on, until capacity insertions later,
      provided nobody inserts its hash again. */
  lemma StillCached(m: map<string, UUID>, log: seq<Entry>, from: nat, capacity: nat, p: nat)
    requires WasMemory(m, log, from, capacity) && p < from
    requires |log| - p <= capacity && forall q | p < q < |log| :: log[q].hash != log[p].hash
    ensures log[p].hash in m && m[log[p].hash] == log[p].id
  {
    var order, n :| MemoryAfter(m, order, log, n, capacity) && from <= n;
    SurvivesInsertions(m, order, log[..n], capacity, p);
  }

  lemma FifoAppend(cache: map<string, UUID>, order: seq<string>, log: seq<Entry>, h: string, id: UUID)
    requires IsSuffix(cache, order, log) && h !in cache
    ensures IsSuffix(cache[h := id], order + [h], log + [Entry(h, id)])
  {
  }

  lemma FifoDrop(cache: map<string, UUID>, order: seq<string>, log: seq<Entry>)
    requires IsSuffix(cache, order, log) && order != []
    ensures IsSuffix(cache - {order[0]}, order[1..], log)
  {
  }

  /** m is what memory held after the first n insertions of the log, for some n from from on. */
  ghost predicate WasMemory(m: map<string, UUID>, log: seq<Entry>, from: nat, capacity: nat) {
    exists order, n :: MemoryAfter(m, order, log, n, capacity) && from <= n
  }

  ghost predicate MemoryAfter(m: map<string, UUID>, order: seq<string>, log: seq<Entry>, n: int, capacity: nat) {
    0 <= n <= |log| && IsFifo(m, order, log[..n], capacity)
  }

  lemma RememberMemory(
    m: map<string, UUID>, order: seq<string>, log: seq<Entry>, more: seq<Entry>, from: nat, capacity: nat)
    requires IsFifo(m, order, log, capacity) && log <= more && from <= |log|
    ensures WasMemory(m, more, from, capacity)
  {
    assert more[..|log|] == log;
    assert MemoryAfter(m, order, more, |log|, capacity);
  }

  lemma CacheSize(cache: map<string, UUID>, order: seq<string>, log: seq<Entry>)
    requires IsSuffix(cache, order, log)
    ensures |cache| == |order|
  {
    DistinctCount(order);
    assert |cache| == |cache.Keys|;
  }

  /** The pair went through AddToCache: unless it is one the cache ignores, the log has an
      insertion of its hash, which stays in memory until enough others follow. */
  ghost predicate Remembered(log: seq<Entry>, h: string, id: UUID) {
    h == "" || id == NIL || exists e :: e in log && e.hash == h
  }

  ghost predicate AllRemembered(log: seq<Entry>, m: map<string, UUID>) {
    forall h | h in m :: Remembered(log, h, m[h])
  }

  lemma RememberedStays(log: seq<Entry>, more: seq<Entry>, m: map<string, UUID>)
    requires log <= more && AllRemembered(log, m)
    ensures AllRemembered(more, m)
  {
    forall h | h in m ensures Remembered(more, h, m[h]) {
      assert Remembered(log, h, m[h]);
    }
  }

  lemma OneMoreRemembered(log: seq<Entry>, rows: map<string, UUID>, pending: set<string>, h: string)
    requires h in rows && AllRemembered(log, rows - pending) && Remembered(log, h, rows[h])
    ensures AllRemembered(log, rows - (pending - {h}))
  {
    forall k | k in rows - (pending - {h}) ensures Remembered(log, k, rows[k]) {
      assert k != h ==> k in rows - pending && (rows - pending)[k] == rows[k];
    }
  }

  lemma CachedIsRemembered(cache: map<string, UUID>, order: seq<string>, log: seq<Entry>, h: string, id: UUID)
    requires IsSuffix(cache, order, log) && h in cache
    ensures Remembered(log, h, id)
  {
    assert h in Elements(order);
    var k :| 0 <= k < |order| && order[k] == h;
    assert Holds(cache, order[k], log[|log| - |order| + k]);
  }

  // ------------------------------------------------------------------- Redis

  class Redis {
    var entries: map<string, UUID>
    ghost var past: seq<map<string, UUID>>

    /** past lists what Redis has held so far, up to now. */
    ghost predicate Valid()
      reads this
    {
      past != [] && past[|past| - 1] == entries
    }

    constructor ()
      ensures Valid() && entries == map[]
    {
      entries, past := map[], [map[]];
    }

    /** MGET: any failure or expiry shows up as keys outside answered. */
    method GetBatch(hashes: seq<string>, answered: set<string>) returns (found: map<string, UUID>)
      ensures found == map h | h in hashes && h in answered && h in entries && entries[h] != NIL :: entries[h]
    {
      found := map[];
      for i := 0 to |hashes|
        invariant found == map h | h in hashes[..i] && h in answered && h in entries && entries[h] != NIL :: entries[h]
      {
        var h := hashes[i];
        if h in answered && h in entries && entries[h] != NIL {
          found := found[h := entries[h]];
        }
        assert hashes[..i + 1] == hashes[..i] + [h];
      }
      assert hashes[..|hashes|] == hashes;
    }

    /** A pipeline of SETs of which only the keys in stored take effect. */
    method SetBatch(m: map<string, UUID>, stored: set<string>)
      modifies this
      ensures Valid() && old(past) <= past
      ensures entries == old(entries) + Restrict(m, stored)
    {
      entries := entries + Restrict(m, stored);
      past := past + [entries];
    }
  }

  /** Redis held m at some time since it had been through from states, then or later. */
  ghost predicate WasHeld(m: map<string, UUID>, past: seq<map<string, UUID>>, from: nat) {
    exists i :: from <= i + 1 <= |past| && 0 <= i && past[i] == m
  }

  lemma HeldNow(past: seq<map<string, UUID>>, was: nat)
    requires past != [] && was <= |past|
    ensures WasHeld(past[|past| - 1], past, was)
  {
    var i := |past| - 1;
    assert was <= i + 1 <= |past| && past[i] == past[|past| - 1];
  }

  lemma HeldStays(m: map<string, UUID>, past: seq<map<string, UUID>>, more: seq<map<string, UUID>>, from: nat, was: nat)
    requires WasHeld(m, past, from) && past <= more && was <= from
    ensures WasHeld(m, more, was)
  {
    var i :| from <= i + 1 <= |past| && 0 <= i && past[i] == m;
    assert more[i] == m;
  }

  lemma SetOne(m: map<string, UUID>, hash: string, id: UUID, stored: bool)
    ensures m + Restrict(map[hash := id], if stored then {hash} else {}) == if stored then m[hash := id] else m
  {
  }

  // ----------------------------------------------------------- the deduplicator

  /** What a worker may assume of the others: owner names the hash each vector id was
      generated for and batch the hashes of the call it was generated in; pending holds the
      pairs that may sit in a cache without (yet) being a row of the table. */
  datatype World = World(owner: UUID -> string, pending: iset<Entry>, batch: UUID -> set<string>)

  ghost function WithPending(w: World, more: iset<Entry>): World {
    w.(pending := w.pending + more)
  }

  ghost predicate Known(w: World, table: map<string, UUID>, h: string, id: UUID) {
    (h in table && table[h] == id) || Entry(h, id) in w.pending
  }

  /** Every entry of m is a row of the table or pending. */
  ghost predicate Within(m: map<string, UUID>, table: map<string, UUID>, w: World) {
    forall h | h in m :: Known(w, table, h, m[h])
  }

  ghost predicate PendingOwned(w: World) {
    forall e | e in w.pending :: w.owner(e.id) == e.hash
  }

  ghost predicate DatabaseSound(db: Database, w: World) {
    Consistent(db) && Faithful(db) && Owned(db.vectors, w.owner)
  }

  /** The hash is in the table, under whatever id, or was embedded together with id. */
  ghost predicate Placed(table: map<string, UUID>, batch: UUID -> set<string>, h: string, id: UUID) {
    h in table || h in batch(id)
  }

  /** Every entry of m is placed: all that can be said of a cache whatever was paired with what. */
  ghost predicate Batched(m: map<string, UUID>, table: map<string, UUID>, batch: UUID -> set<string>) {
    forall h | h in m :: Placed(table, batch, h, m[h])
  }

  lemma BatchedGrows(m: map<string, UUID>, before: map<string, UUID>, after: map<string, UUID>,
                     batch: UUID -> set<string>)
    requires Batched(m, before, batch) && Submap(before, after)
    ensures Batched(m, after, batch)
  {
  }

  lemma WithinGrows(m: map<string, UUID>, before: map<string, UUID>, after: map<string, UUID>, w: World)
    requires Within(m, before, w) && Submap(before, after)
    ensures Within(m, after, w)
  {
  }

  /** Every entry of n is one of m, or the pair named. */
  ghost predicate OneMore(m: map<string, UUID>, n: map<string, UUID>, hash: string, id: UUID) {
    forall h | h in n :: (h == hash && n[h] == id) || (h in m && n[h] == m[h])
  }

  lemma OneMorePending(m: map<string, UUID>, n: map<string, UUID>, hash: string, id: UUID,
                       table: map<string, UUID>, w: World)
    requires Within(m, table, w) && OneMore(m, n, hash, id)
    ensures Within(n, table, WithPending(w, iset{Entry(hash, id)}))
  {
  }

  lemma OneMorePlaced(m: map<string, UUID>, n: map<string, UUID>, hash: string, id: UUID,
                      table: map<string, UUID>, batch: UUID -> set<string>)
    requires Batched(m, table, batch) && OneMore(m, n, hash, id) && hash in batch(id)
    ensures Batched(n, table, batch)
  {
  }

  /** With nothing pending, to be within the table is to be a part of it. */
  lemma NothingPending(m: map<string, UUID>, table: map<string, UUID>, w: World)
    requires w.pending == iset{}
    ensures Within(m, table, w) <==> Submap(m, table)
  {
  }

  class ChunkDeduplicator {
    const repo: VectorRepository
    const redis: Redis
    const capacity: nat
    const canonical: string -> string
    var cache: map<string, UUID>
    var cacheOrder: seq<string>
    ghost var log: seq<Entry>

    ghost predicate Valid()
      reads this, redis
    {
      capacity > 0 && IsFifo(cache, cacheOrder, log, capacity) && redis.Valid()
    }

    /** Both caches agree with the table wherever they answer. */
    ghost predicate Coherent()
      reads this, repo, redis
    {
      Submap(cache, Table(repo.db)) && Submap(redis.entries, Table(repo.db))
    }

    /** The database is sound, and the caches hold nothing but its rows and pending pairs. */
    ghost predicate Sound(w: World)
      reads this, repo, redis
    {
      && DatabaseSound(repo.db, w) && PendingOwned(w)
      && Within(cache, Table(repo.db), w) && Within(redis.entries, Table(repo.db), w)
    }

    /** What holds whatever was paired with what: the table holds whole batches, and every
        cached pair is placed. */
    ghost predicate Accounted(batch: UUID -> set<string>)
      reads this, repo, redis
    {
      && WholeBatches(repo.db.vectors, batch)
      && Batched(cache, Table(repo.db), batch) && Batched(redis.entries, Table(repo.db), batch)
    }

    /** Where to begin: coherent caches are accounted for, old ids being in no batch. */
    lemma CoherentIsAccounted(batch: UUID -> set<string>)
      requires Coherent() && forall h | h in repo.db.vectors :: batch(repo.db.vectors[h].id) == {}
      ensures Accounted(batch)
    {
    }

    /** Sound with nothing pending: every cached pair is the table's pair, every chunk row names
        the vector of its own hash. */
    lemma SoundIsCoherent(w: World)
      requires Sound(w) && w.pending == iset{}
      ensures Coherent() && Faithful(repo.db)
    {
    }

    constructor (repo: VectorRepository, redis: Redis, cacheCapacity: int, canonical: string -> string)
      requires redis.Valid()
      ensures Valid() && log == []
      ensures this.repo == repo && this.redis == redis && this.canonical == canonical
      ensures capacity == if cacheCapacity <= 0 then 10000 else cacheCapacity
    {
      this.repo, this.redis, this.canonical := repo, redis, canonical;
      capacity := if cacheCapacity <= 0 then 10000 else cacheCapacity;
      cache, cacheOrder, log := map[], [], [];
    }

    /** Whatever other goroutines and processes do between two steps of this one: rows are
        added to the tables, cache entries come and go. The body is empty because callers
        may rely on the contract only. */
    method OtherWorkers(ghost w: World)
      requires Valid()
      modifies this, repo, redis
      ensures Valid() && Grows(old(repo.db), repo.db) && old(log) <= log && old(redis.past) <= redis.past
      ensures old(Sound(w)) ==> Sound(w)
      ensures old(Accounted(w.batch)) ==> Accounted(w.batch)
    {
    }

    method AddToCache(hash: string, id: UUID)
      requires Valid()
      modifies this
      ensures Valid()
      ensures log == if hash == "" || id == NIL || hash in old(cache) then old(log) else old(log) + [Entry(hash, id)]
      ensures hash == "" || id == NIL || hash in old(cache) ==> cache == old(cache)
      ensures hash in old(cache) || !(hash == "" || id == NIL) ==> hash in cache
      ensures OneMore(old(cache), cache, hash, id)
    {
      if hash == "" || id == NIL {
        return;
      }
      if hash in cache {
        return;
      }
      CacheSize(cache, cacheOrder, log);
      if |cache| >= capacity {
        FifoDrop(cache, cacheOrder, log);
        var evicted := cacheOrder[0];
        cacheOrder := cacheOrder[1..];
        cache := cache - {evicted};
      }
      FifoAppend(cache, cacheOrder, log, hash, id);
      cache := cache[hash := id];
      cacheOrder := cacheOrder + [hash];
      log := log + [Entry(hash, id)];
    }

    /** Copies a pair found in a lower tier into memory, after others had their turn. */
    method Remember(hash: string, id: UUID, ghost w: World)
      requires Valid()
      modifies this, redis, repo
      ensures Valid() && Grows(old(repo.db), repo.db) && old(log) <= log && old(redis.past) <= redis.past
      ensures Remembered(log, hash, id)
      ensures old(Sound(w) && Known(w, Table(repo.db), hash, id)) ==> Sound(w)
      ensures old(Accounted(w.batch) && Placed(Table(repo.db), w.batch, hash, id)) ==> Accounted(w.batch)
    {
      OtherWorkers(w);
      assert old(Known(w, Table(repo.db), hash, id)) ==> Known(w, Table(repo.db), hash, id);
      assert old(Placed(Table(repo.db), w.batch, hash, id)) ==> Placed(Table(repo.db), w.batch, hash, id);
      AddToCache(hash, id);
      if hash in cache {
        CachedIsRemembered(cache, cacheOrder, log, hash, id);
      }
    }

    /** Puts a pair into both caches, whether or not it is, or will be, a row: in a sound
        state it becomes one more pending pair. */
    method RegisterVectorHash(hash: string, id: UUID, stored: bool, ghost w: World)
      requires Valid()
      modifies this, redis
      ensures Valid() && old(redis.past) <= redis.past
      ensures old(Sound(w)) && w.owner(id) == hash ==> Sound(WithPending(w, iset{Entry(hash, id)}))
      ensures old(Accounted(w.batch)) && hash in w.batch(id) ==> Accounted(w.batch)
      ensures Remembered(log, hash, id)
      ensures log == if hash == "" || id == NIL || hash in old(cache) then old(log) else old(log) + [Entry(hash, id)]
      ensures OneMore(old(cache), cache, hash, id)
      ensures redis.entries ==
              if hash == "" || id == NIL || !stored then old(redis.entries) else old(redis.entries)[hash := id]
    {
      if hash == "" || id == NIL {
        return;
      }
      AddToCache(hash, id);
      CachedIsRemembered(cache, cacheOrder, log, hash, id);
      redis.SetBatch(map[hash := id], if stored then {hash} else {});
      SetOne(old(redis.entries), hash, id, stored);
      if old(Sound(w)) {
        OneMorePending(old(cache), cache, hash, id, Table(repo.db), w);
        OneMorePending(old(redis.entries), redis.entries, hash, id, Table(repo.db), w);
      }
      if old(Accounted(w.batch)) && hash in w.batch(id) {
        OneMorePlaced(old(cache), cache, hash, id, Table(repo.db), w.batch);
        OneMorePlaced(old(redis.entries), redis.entries, hash, id, Table(repo.db), w.batch);
      }
    }

    /** The read-locked pass: stores every chunk's hash in the chunk and splits the hashes
        into those in memory and those still missing. */
    method FromMemory(chunks: array<Chunk>) returns (found: map<string, UUID>, missing: seq<string>)
      modifies chunks
      ensures forall i | 0 <= i < chunks.Length ::
                chunks[i] == old(chunks[i]).(hash := canonical(old(chunks[i].content)))
      ensures found == Restrict(cache, ChunkHashes(chunks[..]))
      ensures Elements(missing) == ChunkHashes(chunks[..]) - cache.Keys
    {
      found, missing := map[], [];
      for i := 0 to chunks.Length
        invariant forall j | 0 <= j < i :: chunks[j] == old(chunks[j]).(hash := canonical(old(chunks[j].content)))
        invariant forall j | i <= j < chunks.Length :: chunks[j] == old(chunks[j])
        invariant found == Restrict(cache, ChunkHashes(chunks[..i]))
        invariant Elements(missing) == ChunkHashes(chunks[..i]) - cache.Keys
      {
        ghost var before := chunks[..i];
        var hash := canonical(chunks[i].content);
        chunks[i] := chunks[i].(hash := hash);
        assert chunks[..i + 1] == before + [chunks[i]];
        SplitNext(cache, before, chunks[i], found, missing);
        if hash in cache {
          found := found[hash := cache[hash]];
        } else {
          missing := missing + [hash];
        }
      }
      assert chunks[..chunks.Length] == chunks[..];
    }

    /** Second tier: hits are copied into memory one at a time, other workers in between. */
    method FromRedis(missing: seq<string>, io: LookupIO, ghost w: World)
      returns (got: map<string, UUID>, rest: seq<string>)
      requires Valid()
      modifies this, redis, repo
      ensures Valid() && Grows(old(repo.db), repo.db) && old(log) <= log && old(redis.past) <= redis.past
      ensures old(Sound(w)) ==> Sound(w) && Within(got, Table(repo.db), w)
      ensures old(Accounted(w.batch)) ==> Accounted(w.batch) && Batched(got, Table(repo.db), w.batch)
      ensures got == RedisAnswers(old(redis.entries), Elements(missing), io.redisAnswers)
      ensures forall h :: h in got <==>
                h in missing && h in io.redisAnswers && h in old(redis.entries) && old(redis.entries)[h] != NIL
      ensures Submap(got, old(redis.entries))
      ensures Elements(rest) == Elements(missing) - got.Keys
      ensures AllRemembered(log, got)
    {
      ghost var sound, accounted := Sound(w), Accounted(w.batch);
      var answers := redis.GetBatch(missing, io.redisAnswers);
      got, rest := map[], [];
      for i := 0 to |missing|
        invariant Valid() && Grows(old(repo.db), repo.db) && old(log) <= log && old(redis.past) <= redis.past
        invariant sound ==> Sound(w) && Within(answers, Table(repo.db), w)
        invariant accounted ==> Accounted(w.batch) && Batched(answers, Table(repo.db), w.batch)
        invariant AllRemembered(log, got)
        invariant got == Restrict(answers, Elements(missing[..i]))
        invariant Elements(rest) == Elements(missing[..i]) - answers.Keys
      {
        var h := missing[i];
        assert missing[..i + 1] == missing[..i] + [h];
        ElementsSnoc(missing[..i], h);
        if h in answers {
          RememberAnswer(h, answers, got, w);
          RestrictNext(answers, Elements(missing[..i]), h);
          got := got[h := answers[h]];
        } else {
          ElementsSnoc(rest, h);
          rest := rest + [h];
        }
      }
      assert missing[..|missing|] == missing;
      RedisAnswersExactly(old(redis.entries), missing, io.redisAnswers);
    }

    /** Copies one answer of Redis into memory. */
    method RememberAnswer(h: string, answers: map<string, UUID>, ghost got: map<string, UUID>, ghost w: World)
      requires Valid() && h in answers && AllRemembered(log, got)
      modifies this, redis, repo
      ensures Valid() && Grows(old(repo.db), repo.db) && old(log) <= log && old(redis.past) <= redis.past
      ensures AllRemembered(log, got[h := answers[h]])
      ensures old(Sound(w) && Within(answers, Table(repo.db), w)) ==> Sound(w) && Within(answers, Table(repo.db), w)
      ensures old(Accounted(w.batch) && Batched(answers, Table(repo.db), w.batch)) ==>
                Accounted(w.batch) && Batched(answers, Table(repo.db), w.batch)
    {
      ghost var before, logged := Table(repo.db), log;
      Remember(h, answers[h], w);
      RememberedStays(logged, log, got);
      if Within(answers, before, w) {
        WithinGrows(answers, before, Table(repo.db), w);
      }
      if Batched(answers, before, w.batch) {
        BatchedGrows(answers, before, Table(repo.db), w.batch);
      }
    }

    /** Third tier: the rows found are copied into memory and into Redis. */
    method FromTable(missing: seq<string>, io: LookupIO, ghost w: World) returns (got: Option<map<string, UUID>>)
      requires Valid()
      modifies this, redis, repo
      ensures Valid() && Grows(old(repo.db), repo.db) && old(log) <= log && old(redis.past) <= redis.past
      ensures got.Some? ==> AllRemembered(log, got.value)
      ensures got.Some? ==> Submap(Restrict(got.value, io.redisStores), redis.entries)
      ensures old(Sound(w)) ==> Sound(w)
      ensures old(Accounted(w.batch)) ==> Accounted(w.batch)
      ensures got == TableAnswers(Table(old(repo.db)), Elements(missing), io)
    {
      got := repo.FindVectorIdsByHashesBatch(missing, io.queryFails, io.rowsLost);
      NothingAsked(missing, Table(repo.db), io);
      if got.None? {
        return;
      }
      RememberAll(got.value, w);
      PublishRows(got.value, io.redisStores, w);
    }

    /** Writes rows to Redis, after others had their turn. */
    method PublishRows(rows: map<string, UUID>, stored: set<string>, ghost w: World)
      requires Valid() && Submap(rows, Table(repo.db))
      modifies this, redis, repo
      ensures Valid() && Grows(old(repo.db), repo.db) && old(log) <= log && old(redis.past) <= redis.past
      ensures Submap(Restrict(rows, stored), redis.entries)
      ensures old(Sound(w)) ==> Sound(w)
      ensures old(Accounted(w.batch)) ==> Accounted(w.batch)
    {
      OtherWorkers(w);
      redis.SetBatch(rows, stored);
    }

    /** Copies rows into memory one by one, in whatever order the map yields them. */
    method RememberAll(rows: map<string, UUID>, ghost w: World)
      requires Valid() && Submap(rows, Table(repo.db))
      modifies this, redis, repo
      ensures Valid() && Grows(old(repo.db), repo.db) && old(log) <= log && old(redis.past) <= redis.past
      ensures AllRemembered(log, rows)
      ensures old(Sound(w)) ==> Sound(w)
      ensures old(Accounted(w.batch)) ==> Accounted(w.batch)
    {
      var pending := rows.Keys;
      while pending != {}
        invariant pending <= rows.Keys
        invariant Valid() && Grows(old(repo.db), repo.db) && old(log) <= log && old(redis.past) <= redis.past
        invariant AllRemembered(log, rows - pending)
        invariant old(Sound(w)) ==> Sound(w)
        invariant old(Accounted(w.batch)) ==> Accounted(w.batch)
        invariant Submap(rows, Table(repo.db))
        decreases pending
      {
        var h :| h in pending;
        ghost var logged := log;
        Remember(h, rows[h], w);
        RememberedStays(logged, log, rows - pending);
        OneMoreRemembered(log, rows, pending, h);
        pending := pending - {h};
      }
      assert rows - pending == rows;
    }

    /** Redis answers with the row's id, unless the hash is blank or the id nil. */
    ghost predicate InRedis(db: Database, h: string)
      requires h in db.vectors
      reads redis
    {
      h != "" && db.vectors[h].id != NIL ==> h in redis.entries && redis.entries[h] == db.vectors[h].id
    }

    /** Start-up: copies recent rows into memory and Redis. recent names the newest rows of
        the table, at most limit of them, and stored the keys whose SET takes effect. */
    method WarmupCache(limit: int, fails: bool, recent: set<string>, stored: set<string>, ghost w: World)
      returns (ok: bool)
      requires Valid() && |recent| <= Max(limit, 0)
      modifies this, redis, repo
      ensures Valid() && Grows(old(repo.db), repo.db)
      ensures old(Sound(w)) ==> Sound(w)
      ensures old(Accounted(w.batch)) ==> Accounted(w.batch)
      ensures ok <==> limit <= 0 || !fails
      ensures limit > 0 && !fails ==> AllRemembered(log, Restrict(Table(old(repo.db)), recent))
      ensures limit > 0 && !fails ==>
                forall h | h in recent && h in stored && h in old(repo.db.vectors) :: InRedis(old(repo.db), h)
    {
      if limit <= 0 {
        return true;
      }
      var rows := repo.FetchRecentVectorHashes(limit, fails, recent);
      if rows.None? {
        return false;
      }
      ok := true;
      ghost var newest := Restrict(Table(repo.db), recent);
      if rows.value == map[] {
        FetchedIsAll(rows.value, newest, log);
        return;
      }
      RememberAll(rows.value, w);
      ghost var logged := log;
      PublishRows(rows.value, stored, w);
      RememberedStays(logged, log, rows.value);
      FetchedIsAll(rows.value, newest, log);
    }

    /** The batch lookup is Answer on the three tiers, each as it was when its turn came:
        memory at the start, the table at some state between start and end. Whatever is
        evicted, expires or fails in Redis, and whatever other workers do meanwhile, sound
        tiers give answers that are rows, save for what was pending. */
    method DeduplicateChunkBatch(chunks: array<Chunk>, io: LookupIO, ghost w: World)
      returns (r: Option<map<string, UUID>>, ghost tiers: Tiers)
      requires Valid()
      modifies chunks, this, redis, repo
      ensures Valid() && Grows(old(repo.db), repo.db) && old(redis.past) <= redis.past
      ensures old(Sound(w)) ==> Sound(w)
      ensures old(Accounted(w.batch)) ==> Accounted(w.batch)
      ensures forall i | 0 <= i < chunks.Length ::
                chunks[i] == old(chunks[i]).(hash := canonical(old(chunks[i].content)))
      ensures old(log) <= log && (r.Some? ==> AllRemembered(log, r.value))
      ensures tiers.memory == old(cache) && WasHeld(tiers.redis, redis.past, |old(redis.past)|)
      ensures Submap(Table(old(repo.db)), tiers.table) && Submap(tiers.table, Table(repo.db))
      ensures r == Answer(tiers, ChunkHashes(chunks[..]), io)
      ensures old(Sound(w)) ==> TiersSound(tiers, w)
      ensures r.Some? && old(Sound(w)) ==> Within(r.value, Table(repo.db), w)
      ensures r.Some? && old(Accounted(w.batch)) ==> Batched(r.value, Table(repo.db), w.batch)
    {
      tiers := Tiers(cache, redis.entries, Table(repo.db));
      HeldNow(redis.past, |redis.past|);
      if chunks.Length == 0 {
        AnsweredEarly(tiers, ChunkHashes(chunks[..]), io);
        return Some(map[]), tiers;
      }
      var found, missing := FromMemory(chunks);
      ghost var hashes, hits := ChunkHashes(chunks[..]), found;
      HitsRemembered(cache, cacheOrder, log, hits);
      if missing == [] {
        assert Elements(missing) == {};
        AnsweredEarly(tiers, hashes, io);
        return Some(found), tiers;
      }
      ghost var log0 := log;
      var fromRedis, fromTable;
      ghost var entries, rows;
      fromRedis, fromTable, entries, rows := FromLowerTiers(missing, io, w);
      tiers := Tiers(tiers.memory, entries, rows);
      if old(Sound(w)) {
        WithinGrows(tiers.memory, Table(old(repo.db)), rows, w);
      }
      TiersCombine(tiers, hashes, io, fromRedis);
      if fromTable.None? {
        return None, tiers;
      }
      if old(Sound(w)) {
        AnswersWithin(hits, fromRedis, fromTable.value, Table(repo.db), w);
      }
      if old(Accounted(w.batch)) {
        AnswersBatched(hits, fromRedis, fromTable.value, Table(repo.db), w.batch);
      }
      RememberedStays(log0, log, hits);
      AllThreeRemembered(log, hits, fromRedis, fromTable.value);
      found := found + fromRedis + fromTable.value;
      return Some(found), tiers;
    }

    /** Redis for what memory misses, the table for what Redis misses. */
    method FromLowerTiers(missing: seq<string>, io: LookupIO, ghost w: World)
      returns (fromRedis: map<string, UUID>, fromTable: Option<map<string, UUID>>,
               ghost entries: map<string, UUID>, ghost rows: map<string, UUID>)
      requires Valid()
      modifies this, redis, repo
      ensures Valid() && Grows(old(repo.db), repo.db) && old(log) <= log && old(redis.past) <= redis.past
      ensures old(Sound(w)) ==> Sound(w) && Within(fromRedis, Table(repo.db), w)
      ensures old(Accounted(w.batch)) ==> Accounted(w.batch) && Batched(fromRedis, Table(repo.db), w.batch)
      ensures Submap(Table(old(repo.db)), rows) && Submap(rows, Table(repo.db))
      ensures WasHeld(entries, redis.past, |old(redis.past)|)
      ensures old(Sound(w)) ==> Within(entries, rows, w)
      ensures fromRedis == RedisAnswers(entries, Elements(missing), io.redisAnswers) && AllRemembered(log, fromRedis)
      ensures fromTable == TableAnswers(rows, Elements(missing) - fromRedis.Keys, io)
      ensures fromTable.Some? ==> AllRemembered(log, fromTable.value)
    {
      OtherWorkers(w);
      entries := redis.entries;
      ghost var past := redis.past;
      HeldNow(past, |past|);
      ghost var seen := Table(repo.db);
      var rest;
      fromRedis, rest := FromRedis(missing, io, w);
      ghost var logged, before := log, Table(repo.db);
      OtherWorkers(w);
      rows := Table(repo.db);
      if old(Sound(w)) {
        WithinGrows(entries, seen, rows, w);
      }
      fromTable := FromTable(rest, io, w);
      HeldStays(entries, past, redis.past, |past|, |old(redis.past)|);
      RememberedStays(logged, log, fromRedis);
      if old(Sound(w)) {
        WithinGrows(fromRedis, before, Table(repo.db), w);
      }
      if old(Accounted(w.batch)) {
        BatchedGrows(fromRedis, before, Table(repo.db), w.batch);
      }
    }
  }

  // ----------------------------------------------------------- what a lookup answers

  /** The three tiers of one lookup, each as it was when it was asked. */
  datatype Tiers = Tiers(memory: map<string, UUID>, redis: map<string, UUID>, table: map<string, UUID>)

  /** Both caches held nothing but rows of the table, as it was asked, and pending pairs. */
  ghost predicate TiersSound(tiers: Tiers, w: World) {
    Within(tiers.memory, tiers.table, w) && Within(tiers.redis, tiers.table, w)
  }

  /** What an MGET yields. */
  function RedisAnswers(entries: map<string, UUID>, asked: set<string>, answered: set<string>): map<string, UUID> {
    map h | h in entries && h in asked && h in answered && entries[h] != NIL :: entries[h]
  }

  lemma RestrictNext(m: map<string, UUID>, ks: set<string>, k: string)
    requires k in m
    ensures Restrict(m, ks)[k := m[k]] == Restrict(m, ks + {k})
  {
  }

  lemma RedisAnswersExactly(entries: map<string, UUID>, missing: seq<string>, answered: set<string>)
    ensures forall h :: h in RedisAnswers(entries, Elements(missing), answered) <==>
              h in missing && h in answered && h in entries && entries[h] != NIL
    ensures Submap(RedisAnswers(entries, Elements(missing), answered), entries)
  {
  }

  /** What the table is asked for and answers; with nothing to ask there is no query to fail. */
  function TableAnswers(table: map<string, UUID>, asked: set<string>, io: LookupIO): Option<map<string, UUID>> {
    if asked == {} then Some(map[])
    else if io.queryFails then None
    else Some(Restrict(table, asked - io.rowsLost))
  }

  /** What is known before the table is asked. */
  function Early(tiers: Tiers, hashes: set<string>, io: LookupIO): map<string, UUID> {
    Restrict(tiers.memory, hashes) + RedisAnswers(tiers.redis, hashes - tiers.memory.Keys, io.redisAnswers)
  }

  /** The answer of a lookup: memory first, Redis for the rest, the table for what is left;
      none exactly when there is something left to ask and the query fails. */
  function Answer(tiers: Tiers, hashes: set<string>, io: LookupIO): Option<map<string, UUID>> {
    var early := Early(tiers, hashes, io);
    match TableAnswers(tiers.table, hashes - early.Keys, io)
    case None => None
    case Some(rows) => Some(early + rows)
  }

  lemma EarlyKeys(tiers: Tiers, hashes: set<string>, io: LookupIO)
    ensures Early(tiers, hashes, io).Keys
         == tiers.memory.Keys * hashes
            + RedisAnswers(tiers.redis, hashes - tiers.memory.Keys, io.redisAnswers).Keys
    ensures Early(tiers, hashes, io).Keys <= hashes
  {
    assert Restrict(tiers.memory, hashes).Keys == tiers.memory.Keys * hashes;
  }

  lemma TiersCombine(tiers: Tiers, hashes: set<string>, io: LookupIO, fromRedis: map<string, UUID>)
    requires fromRedis == RedisAnswers(tiers.redis, hashes - tiers.memory.Keys, io.redisAnswers)
    ensures Early(tiers, hashes, io) == Restrict(tiers.memory, hashes) + fromRedis
    ensures hashes - Early(tiers, hashes, io).Keys == hashes - tiers.memory.Keys - fromRedis.Keys
  {
    EarlyKeys(tiers, hashes, io);
  }

  /** When memory knows every hash no other tier matters. */
  lemma AnsweredEarly(tiers: Tiers, hashes: set<string>, io: LookupIO)
    requires hashes - tiers.memory.Keys == {}
    ensures Answer(tiers, hashes, io) == Some(Restrict(tiers.memory, hashes))
  {
    EarlyKeys(tiers, hashes, io);
    assert hashes == hashes * tiers.memory.Keys + (hashes - tiers.memory.Keys);
    assert RedisAnswers(tiers.redis, {}, io.redisAnswers) == map[];
    assert Early(tiers, hashes, io) == Restrict(tiers.memory, hashes);
    assert hashes - Early(tiers, hashes, io).Keys == {};
  }

  /** An empty list of hashes is an empty set of them. */
  lemma NothingAsked(missing: seq<string>, table: map<string, UUID>, io: LookupIO)
    ensures Elements(missing) == (set h | h in missing)
    ensures missing == [] <==> Elements(missing) == {}
    ensures Restrict(table, {}) == map[]
  {
    if missing != [] {
      assert missing[0] in Elements(missing);
    }
  }

  lemma EarlyExactly(tiers: Tiers, hashes: set<string>, io: LookupIO, h: string)
    requires h in hashes
    ensures h in Early(tiers, hashes, io) <==>
              h in tiers.memory || (h in io.redisAnswers && h in tiers.redis && tiers.redis[h] != NIL)
    ensures h in tiers.memory ==> Early(tiers, hashes, io)[h] == tiers.memory[h]
    ensures h !in tiers.memory && h in io.redisAnswers && h in tiers.redis && tiers.redis[h] != NIL ==>
              Early(tiers, hashes, io)[h] == tiers.redis[h]
  {
  }

  /** The lookup hash by hash, on what the tiers held and nothing else: memory's entry if it
      has one; else Redis's, if Redis answers with one that is not nil; else the row's id, if
      there is a row and it is not lost; else none. */
  lemma AnswerByTier(tiers: Tiers, hashes: set<string>, io: LookupIO, h: string)
    requires Answer(tiers, hashes, io).Some?
    ensures Answer(tiers, hashes, io).value.Keys <= hashes
    ensures h in hashes ==>
              var found := Answer(tiers, hashes, io).value;
              if h in tiers.memory then
                h in found && found[h] == tiers.memory[h]
              else if h in io.redisAnswers && h in tiers.redis && tiers.redis[h] != NIL then
                h in found && found[h] == tiers.redis[h]
              else if h in tiers.table && h !in io.rowsLost then
                h in found && found[h] == tiers.table[h]
              else
                h !in found
  {
    AnswerKeys(tiers, hashes, io);
    EarlyKeys(tiers, hashes, io);
    if h in hashes {
      EarlyExactly(tiers, hashes, io, h);
    }
  }

  /** When a lookup fails: exactly when the query fails and some hash was neither in memory nor
      answered by Redis. */
  lemma FailsExactly(tiers: Tiers, hashes: set<string>, io: LookupIO)
    ensures Answer(tiers, hashes, io).None? <==>
              io.queryFails && exists h :: h in hashes && h !in tiers.memory
                                           && !(h in io.redisAnswers && h in tiers.redis && tiers.redis[h] != NIL)
  {
    forall h | h in hashes
      ensures h in Early(tiers, hashes, io) <==>
                h in tiers.memory || (h in io.redisAnswers && h in tiers.redis && tiers.redis[h] != NIL)
    {
      EarlyExactly(tiers, hashes, io, h);
    }
    NothingLeft(hashes, Early(tiers, hashes, io).Keys);
  }

  lemma NothingLeft(a: set<string>, b: set<string>)
    ensures a - b == {} <==> a <= b
  {
    if !(a <= b) {
      var x :| x in a && x !in b;
      assert x in a - b;
    }
  }

  lemma AnswerKeys(tiers: Tiers, hashes: set<string>, io: LookupIO)
    requires Answer(tiers, hashes, io).Some?
    ensures var early := Early(tiers, hashes, io).Keys;
            Answer(tiers, hashes, io).value.Keys == early + (tiers.table.Keys * (hashes - early) - io.rowsLost)
  {
    var early := Early(tiers, hashes, io).Keys;
    EarlyKeys(tiers, hashes, io);
    var asked := hashes - early;
    assert Restrict(tiers.table, asked - io.rowsLost).Keys == tiers.table.Keys * asked - io.rowsLost;
    assert asked == {} ==> tiers.table.Keys * asked - io.rowsLost == {};
  }

  /** Whatever the tiers held, a successful lookup keeps what memory said and knows every hash
      of the batch that was in the table when it began, unless its row was lost. */
  lemma AnswerCovers(tiers: Tiers, hashes: set<string>, io: LookupIO, before: map<string, UUID>)
    requires Answer(tiers, hashes, io).Some? && Submap(before, tiers.table)
    ensures LookupResult(Answer(tiers, hashes, io).value, hashes, io.rowsLost, tiers.memory, before)
  {
    AnswerKeys(tiers, hashes, io);
    EarlyKeys(tiers, hashes, io);
  }

  /** The lookup refines the table as it was at the start exactly when no row that it still
      had to ask the table for was lost on the way. */
  lemma CoversExactly(tiers: Tiers, hashes: set<string>, io: LookupIO, before: map<string, UUID>)
    requires Answer(tiers, hashes, io).Some? && Submap(before, tiers.table)
    ensures before.Keys * hashes <= Answer(tiers, hashes, io).value.Keys <==>
              forall h | h in before && h in hashes && h !in tiers.memory
                         && !(h in io.redisAnswers && h in tiers.redis && tiers.redis[h] != NIL) :: h !in io.rowsLost
  {
    forall h | h in before.Keys * hashes
      ensures h in Answer(tiers, hashes, io).value <==>
                || h in tiers.memory || (h in io.redisAnswers && h in tiers.redis && tiers.redis[h] != NIL)
                || h !in io.rowsLost
    {
      AnswerByTier(tiers, hashes, io, h);
    }
  }

  lemma HitsRemembered(cache: map<string, UUID>, order: seq<string>, log: seq<Entry>, hits: map<string, UUID>)
    requires IsSuffix(cache, order, log) && Submap(hits, cache)
    ensures AllRemembered(log, hits)
  {
    forall h | h in hits ensures Remembered(log, h, hits[h]) {
      CachedIsRemembered(cache, order, log, h, hits[h]);
    }
  }

  /** Rows that warm-up does not fetch are rows the cache would ignore. */
  lemma FetchedIsAll(fetched: map<string, UUID>, newest: map<string, UUID>, log: seq<Entry>)
    requires AllRemembered(log, fetched)
    requires forall h | h in newest && h != "" && newest[h] != NIL :: h in fetched && fetched[h] == newest[h]
    ensures AllRemembered(log, newest)
  {
    forall h | h in newest ensures Remembered(log, h, newest[h]) {
      if h in fetched {
        assert Remembered(log, h, fetched[h]);
      }
    }
  }

  lemma AllThreeRemembered(log: seq<Entry>, a: map<string, UUID>, b: map<string, UUID>, c: map<string, UUID>)
    requires AllRemembered(log, a) && AllRemembered(log, b) && AllRemembered(log, c)
    ensures AllRemembered(log, a + b + c)
  {
  }

  /** Three maps within the table make one. */
  lemma AnswersWithin(
    a: map<string, UUID>, b: map<string, UUID>, c: map<string, UUID>, table: map<string, UUID>, w: World)
    requires Within(a, table, w) && Within(b, table, w) && Submap(c, table)
    ensures Within(a + b + c, table, w)
  {
  }

  lemma AnswersBatched(
    a: map<string, UUID>, b: map<string, UUID>, c: map<string, UUID>, table: map<string, UUID>,
    batch: UUID -> set<string>)
    requires Batched(a, table, batch) && Batched(b, table, batch) && Submap(c, table)
    ensures Batched(a + b + c, table, batch)
  {
  }

  /** What a lookup owes its caller, given memory and table as they were when it began. */
  ghost predicate LookupResult(
    found: map<string, UUID>, hashes: set<string>, lost: set<string>,
    memory: map<string, UUID>, table: map<string, UUID>)
  {
    && found.Keys <= hashes
    && Submap(Restrict(memory, hashes), found)
    && table.Keys * hashes - lost <= found.Keys
  }

  function ChunkHashes(cs: seq<Chunk>): set<string> {
    set c | c in cs :: c.hash
  }

  lemma ChunkHashesSnoc(cs: seq<Chunk>, c: Chunk)
    ensures ChunkHashes(cs + [c]) == ChunkHashes(cs) + {c.hash}
  {
  }

  /** One more chunk of the read-locked pass. */
  lemma SplitNext(
    cache: map<string, UUID>, cs: seq<Chunk>, c: Chunk, found: map<string, UUID>, missing: seq<string>)
    requires found == Restrict(cache, ChunkHashes(cs)) && Elements(missing) == ChunkHashes(cs) - cache.Keys
    ensures c.hash in cache ==>
              && found[c.hash := cache[c.hash]] == Restrict(cache, ChunkHashes(cs + [c]))
              && Elements(missing) == ChunkHashes(cs + [c]) - cache.Keys
    ensures c.hash !in cache ==>
              && found == Restrict(cache, ChunkHashes(cs + [c]))
              && Elements(missing + [c.hash]) == ChunkHashes(cs + [c]) - cache.Keys
  {
    ChunkHashesSnoc(cs, c);
    ElementsSnoc(missing, c.hash);
  }

  /** With coherent caches and no lost rows the answer is sandwiched between the table at
      the start and the table at the end, both cut down to the batch. */
  lemma LookupSandwich(
    found: map<string, UUID>, hashes: set<string>, lost: set<string>,
    memory: map<string, UUID>, before: map<string, UUID>, after: map<string, UUID>)
    requires LookupResult(found, hashes, lost, memory, before)
    requires Submap(before, after) && Submap(found, after)
    ensures Submap(Restrict(before, hashes - lost), found)
    ensures Submap(found, Restrict(after, hashes))
    ensures lost == {} && before == after ==> found == Restrict(before, hashes)
  {
  }
}
