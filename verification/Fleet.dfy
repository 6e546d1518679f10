/** Any number of pipeline workers over one database, one in-memory cache and one Redis, as
    interleaved atomic steps: the wait groups, locks and round trips of deduplicator.go and
    pipeline_worker.go leave every order of these steps possible. */
module Fleet {
  import opened Domain
  import opened Repository
  import opened SaveLaws
  import opened Enrichment
  import opened Deduplicator
  import opened Runs
  import RunLaws

  /** What one worker has in hand: nothing; chunks and the hashes known so far; or a job
      whose first next pairs are registered, and the one after them in memory if cached. */
  datatype Local =
    | Idle
    | Looking(raw: seq<Chunk>, found: map<string, UUID>)
    | Pairing(job: Run, next: nat, cached: bool)

  /** stranded collects the pairs that were registered and then not made rows. */
  datatype State = State(
    db: Database, cache: map<string, UUID>, redis: map<string, UUID>, workers: seq<Local>, stranded: iset<Entry>)

  datatype Step =
    | Forget(cache: map<string, UUID>, redis: map<string, UUID>)  // evictions and expiry
    | Start(i: nat, raw: seq<Chunk>)
    | Recall(i: nat, h: string)                                   // a hit in memory
    | Fetch(i: nat, h: string)                                    // a hit in Redis
    | Query(i: nat, h: string)                                    // a row of the table
    | Remember(i: nat, h: string)                                 // found pair to memory
    | Publish(i: nat, h: string)                                  // found pair to Redis
    | GiveUp(i: nat)                                              // an error before the save
    | Embed(i: nat, vectors: seq<Vector>, enriched: seq<Chunk>)
    | RegisterMemory(i: nat)                                      // under the mutex
    | RegisterRedis(i: nat, stored: bool)                         // a round trip of its own
    | Save(i: nat, faultless: bool)

  /** Worker i is between its first chunk and its embeddings. */
  predicate Looks(s: State, i: nat) {
    i < |s.workers| && s.workers[i].Looking?
  }

  predicate Pairs(s: State, i: nat) {
    i < |s.workers| && s.workers[i].Pairing? && |s.workers[i].job.enriched| <= |s.workers[i].job.vectors|
  }

  predicate Registers(s: State, i: nat) {
    Pairs(s, i) && s.workers[i].next < |s.workers[i].job.enriched|
  }

  /** The pair a worker registers next. */
  ghost function NextPair(s: State, i: nat): Entry
    requires Registers(s, i)
  {
    Entry(s.workers[i].job.enriched[s.workers[i].next].hash, s.workers[i].job.vectors[s.workers[i].next].id)
  }

  /** owner names the hash an id was generated for; a job's ids are new to the world. */
  ghost predicate Enabled(p: Profile, owner: UUID -> string, s: State, t: Step) {
    match t
    case Forget(cache, redis) => Submap(cache, s.cache) && Submap(redis, s.redis)
    case Start(i, _) => i < |s.workers| && s.workers[i].Idle?
    case Recall(i, h) => Looks(s, i) && h in s.cache
    case Fetch(i, h) => Looks(s, i) && h in s.redis
    case Query(i, h) => Looks(s, i) && h in s.db.vectors
    case Remember(i, h) => Looks(s, i) && h in s.workers[i].found
    case Publish(i, h) => Looks(s, i) && h in s.workers[i].found
    case GiveUp(i) => Looks(s, i)
    case Embed(i, vectors, enriched) =>
      && Looks(s, i)
      && var cs := ToEmbed(s.workers[i].raw, s.workers[i].found);
         && EmbeddingsOf(vectors, cs) && DistinctIds(vectors) && VectorsOwned(vectors, owner)
         && IsFiltered(p, enriched, cs)
    case RegisterMemory(i) => Registers(s, i) && !s.workers[i].cached
    case RegisterRedis(i, _) => Registers(s, i) && s.workers[i].cached
    case Save(i, _) =>
      Pairs(s, i) && s.workers[i].next == |s.workers[i].job.enriched| && DistinctIds(s.workers[i].job.vectors)
  }

  function AddOnce(m: map<string, UUID>, h: string, id: UUID): map<string, UUID> {
    if h in m || h == "" || id == NIL then m else m[h := id]
  }

  /** The job as its save leaves it. */
  ghost function Attempt(s: State, job: Run, faultless: bool): Run
    requires DistinctIds(job.vectors)
  {
    job.(atSave := s.db, committed := faultless && Accepts(s.db, job.vectors, Final(job)))
  }

  ghost function NewJob(l: Local, s: State, vectors: seq<Vector>, enriched: seq<Chunk>): Run
    requires l.Looking?
  {
    Run(l.raw, map[], s.db, {}, l.found, vectors, enriched, s.db, SaveFaults(false, {}, {}, false), false)
  }

  ghost function Next(p: Profile, owner: UUID -> string, s: State, t: Step): State
    requires Enabled(p, owner, s, t)
  {
    match t
    case Forget(cache, redis) => s.(cache := cache, redis := redis)
    case Start(i, raw) => s.(workers := s.workers[i := Looking(raw, map[])])
    case Recall(i, h) => s.(workers := s.workers[i := Learn(s.workers[i], h, s.cache[h])])
    case Fetch(i, h) => s.(workers := s.workers[i := Learn(s.workers[i], h, s.redis[h])])
    case Query(i, h) => s.(workers := s.workers[i := Learn(s.workers[i], h, s.db.vectors[h].id)])
    case Remember(i, h) => s.(cache := AddOnce(s.cache, h, s.workers[i].found[h]))
    case Publish(i, h) => s.(redis := s.redis[h := s.workers[i].found[h]])
    case GiveUp(i) => s.(workers := s.workers[i := Idle])
    case Embed(i, vectors, enriched) =>
      s.(workers := s.workers[i := Pairing(NewJob(s.workers[i], s, vectors, enriched), 0, false)])
    case RegisterMemory(i) =>
      var e := NextPair(s, i);
      s.(cache := AddOnce(s.cache, e.hash, e.id), workers := s.workers[i := s.workers[i].(cached := true)])
    case RegisterRedis(i, stored) =>
      var e := NextPair(s, i);
      s.(redis := if stored && e.hash != "" && e.id != NIL then s.redis[e.hash := e.id] else s.redis,
         workers := s.workers[i := Pairing(s.workers[i].job, s.workers[i].next + 1, false)])
    case Save(i, faultless) =>
      var r := Attempt(s, s.workers[i].job, faultless);
      s.(db := After(r), workers := s.workers[i := Idle], stranded := s.stranded + Unmade(r))
  }

  function Learn(l: Local, h: string, id: UUID): Local
    requires l.Looking?
  {
    l.(found := l.found[h := id])
  }

  /** The registered pairs that are no rows after the save. */
  ghost function Unmade(r: Run): iset<Entry>
    requires DistinctIds(r.vectors)
  {
    iset e | e in Registered(r) && !RunLaws.IsRow(After(r), e)
  }

  // ------------------------------------------------------------------ the invariant

  /** Registered by a worker that has not saved yet, or stranded. */
  ghost predicate Floats(s: State, e: Entry) {
    e in s.stranded || exists i :: 0 <= i < |s.workers| && FloatsAt(s.workers[i], e)
  }

  ghost predicate FloatsAt(l: Local, e: Entry) {
    l.Pairing? && e in RegisteredUpTo(l.job.enriched, l.job.vectors, if l.cached then l.next + 1 else l.next)
  }

  /** A pair belongs to its hash, and is a row or floats. */
  ghost predicate Traced(owner: UUID -> string, s: State, h: string, id: UUID) {
    owner(id) == h && (RunLaws.IsRow(s.db, Entry(h, id)) || Floats(s, Entry(h, id)))
  }

  ghost predicate AllTraced(owner: UUID -> string, s: State, m: map<string, UUID>) {
    forall h | h in m :: Traced(owner, s, h, m[h])
  }

  ghost predicate LocalOk(owner: UUID -> string, s: State, l: Local) {
    match l
    case Idle => true
    case Looking(_, found) => AllTraced(owner, s, found)
    case Pairing(r, next, _) =>
      && AllTraced(owner, s, r.found) && HashCorrect(r.enriched, r.vectors)
      && DistinctIds(r.vectors) && OwnIds(r, owner) && next <= |r.enriched|
  }

  ghost predicate Inv(owner: UUID -> string, s: State) {
    && Consistent(s.db) && Faithful(s.db) && Owned(s.db.vectors, owner)
    && AllTraced(owner, s, s.cache) && AllTraced(owner, s, s.redis)
    && forall i | 0 <= i < |s.workers| :: LocalOk(owner, s, s.workers[i])
  }

  /** In a job that starts, every kept chunk meets the vector of its own hash. */
  ghost predicate RightPairs(t: Step) {
    t.Embed? ==> HashCorrect(t.enriched, t.vectors)
  }

  /** Which jobs those are: all in which no kept chunk follows a dropped one and, if the new
      hashes differ, only those. */
  lemma RightPairsExactly(p: Profile, owner: UUID -> string, s: State, t: Step)
    requires t.Embed? && Enabled(p, owner, s, t)
    ensures var cs := ToEmbed(s.workers[t.i].raw, s.workers[t.i].found);
            && (KeptPrefix(p, cs) ==> RightPairs(t))
            && (DistinctChunkHashes(cs) ==> (RightPairs(t) <==> KeptPrefix(p, cs)))
  {
    PairingExact(p, ToEmbed(s.workers[t.i].raw, s.workers[t.i].found), t.vectors, t.enriched);
  }

  /** Nothing stops being traced from s to t. */
  ghost predicate Preserves(s: State, t: State) {
    && Submap(Table(s.db), Table(t.db))
    && forall e | Floats(s, e) :: Floats(t, e) || RunLaws.IsRow(t.db, e)
  }

  lemma StaysTraced(owner: UUID -> string, s: State, t: State, m: map<string, UUID>)
    requires Preserves(s, t) && AllTraced(owner, s, m)
    ensures AllTraced(owner, t, m)
  {
  }

  /** Replacing a worker that has registered nothing, or only growing what it registered,
      lets nothing out of sight. */
  lemma WorkerChanges(s: State, t: State, i: nat, l: Local)
    requires i < |s.workers| && t.workers == s.workers[i := l] && t.db == s.db && t.stranded == s.stranded
    requires forall e | FloatsAt(s.workers[i], e) :: FloatsAt(l, e)
    ensures Preserves(s, t)
  {
    forall e | Floats(s, e) ensures Floats(t, e) {
      if e !in s.stranded {
        var k :| 0 <= k < |s.workers| && FloatsAt(s.workers[k], e);
        assert FloatsAt(t.workers[k], e);
      }
    }
  }

  lemma OthersStayOk(owner: UUID -> string, s: State, t: State, i: nat)
    requires Inv(owner, s) && Preserves(s, t)
    requires |t.workers| == |s.workers| && forall k | 0 <= k < |s.workers| && k != i :: t.workers[k] == s.workers[k]
    requires i < |t.workers| ==> LocalOk(owner, t, t.workers[i])
    ensures forall k | 0 <= k < |t.workers| :: LocalOk(owner, t, t.workers[k])
    ensures AllTraced(owner, t, s.cache) && AllTraced(owner, t, s.redis)
  {
  }

  // ------------------------------------------------------------------ its preservation

  lemma LearnKeepsInv(p: Profile, owner: UUID -> string, s: State, t: Step)
    requires Inv(owner, s) && Enabled(p, owner, s, t) && (t.Recall? || t.Fetch? || t.Query?)
    ensures Inv(owner, Next(p, owner, s, t))
  {
    var i, u := t.i, Next(p, owner, s, t);
    var l, id := s.workers[i], u.workers[i].found[t.h];
    WorkerChanges(s, u, i, u.workers[i]);
    assert LocalOk(owner, s, l);
    StaysTraced(owner, s, u, l.found);
    StaysTraced(owner, s, u, s.cache);
    StaysTraced(owner, s, u, s.redis);
    assert Traced(owner, u, t.h, id);
    OthersStayOk(owner, s, u, i);
  }

  lemma CacheKeepsInv(p: Profile, owner: UUID -> string, s: State, t: Step)
    requires Inv(owner, s) && Enabled(p, owner, s, t) && (t.Remember? || t.Publish? || t.Forget?)
    ensures Inv(owner, Next(p, owner, s, t))
  {
    var u := Next(p, owner, s, t);
    assert Preserves(s, u) by {
      forall e | Floats(s, e) ensures Floats(u, e) {
        assert u.workers == s.workers;
      }
    }
    if !t.Forget? {
      assert LocalOk(owner, s, s.workers[t.i]);
      StaysTraced(owner, s, u, s.workers[t.i].found);
    }
    OthersStayOk(owner, s, u, |s.workers|);
    forall h | h in u.cache ensures Traced(owner, u, h, u.cache[h]) {
    }
    forall h | h in u.redis ensures Traced(owner, u, h, u.redis[h]) {
    }
  }

  lemma TurnKeepsInv(p: Profile, owner: UUID -> string, s: State, t: Step)
    requires Inv(owner, s) && Enabled(p, owner, s, t) && (t.Start? || t.GiveUp? || t.Embed?) && RightPairs(t)
    ensures Inv(owner, Next(p, owner, s, t))
  {
    var i, u := t.i, Next(p, owner, s, t);
    WorkerChanges(s, u, i, u.workers[i]);
    if t.Embed? {
      var l := s.workers[i];
      assert LocalOk(owner, s, l);
      StaysTraced(owner, s, u, l.found);
    }
    OthersStayOk(owner, s, u, i);
  }

  lemma RegisterKeepsInv(p: Profile, owner: UUID -> string, s: State, t: Step)
    requires Inv(owner, s) && Enabled(p, owner, s, t) && (t.RegisterMemory? || t.RegisterRedis?)
    ensures Inv(owner, Next(p, owner, s, t))
  {
    var i, u, e := t.i, Next(p, owner, s, t), NextPair(s, t.i);
    var l := s.workers[i];
    assert LocalOk(owner, s, l);
    WorkerChanges(s, u, i, u.workers[i]);
    StaysTraced(owner, s, u, l.job.found);
    OthersStayOk(owner, s, u, i);
    assert Traced(owner, u, e.hash, e.id) by {
      assert FloatsAt(u.workers[i], e);
    }
  }

  lemma SaveKeepsInv(p: Profile, owner: UUID -> string, s: State, t: Step)
    requires Inv(owner, s) && Enabled(p, owner, s, t) && t.Save?
    ensures Inv(owner, Next(p, owner, s, t))
  {
    var i, u := t.i, Next(p, owner, s, t);
    assert LocalOk(owner, s, s.workers[i]);
    var r := Attempt(s, s.workers[i].job, t.faultless);
    SaveKeepsDatabase(owner, s, r);
    SaveKeepsSight(s, u, i, r);
    OthersStayOk(owner, s, u, i);
  }

  /** The world in which every owned pair may sit in a cache. */
  ghost function Everything(owner: UUID -> string): World {
    World(owner, (iset e: Entry | owner(e.id) == e.hash), _ => {})
  }

  lemma EverythingAllowed(owner: UUID -> string, s: State, m: map<string, UUID>)
    requires AllTraced(owner, s, m)
    ensures Within(m, Table(s.db), Everything(owner))
  {
  }

  lemma SaveKeepsDatabase(owner: UUID -> string, s: State, r: Run)
    requires Attempted(r) && r.atSave == s.db && HashCorrect(r.enriched, r.vectors) && OwnIds(r, owner)
    requires Consistent(s.db) && Faithful(s.db) && Owned(s.db.vectors, owner) && AllTraced(owner, s, r.found)
    ensures Consistent(After(r)) && Faithful(After(r)) && Owned(After(r).vectors, owner)
  {
    EverythingAllowed(owner, s, r.found);
    RunKeepsSound(r, Everything(owner));
  }

  /** What worker i had registered is a row now, or stranded. */
  lemma SaveKeepsSight(s: State, u: State, i: nat, r: Run)
    requires Pairs(s, i) && DistinctIds(r.vectors) && r.atSave == s.db
    requires r.enriched == s.workers[i].job.enriched && r.vectors == s.workers[i].job.vectors
    requires s.workers[i].next == |r.enriched|
    requires u == s.(db := After(r), workers := s.workers[i := Idle], stranded := s.stranded + Unmade(r))
    ensures Preserves(s, u)
  {
    SaveGrows(r.atSave, r.vectors, Final(r));
    forall e | Floats(s, e) ensures Floats(u, e) || RunLaws.IsRow(u.db, e) {
      if FloatsAt(s.workers[i], e) {
        RegisteredSettles(r, s.workers[i].job, e);
      } else {
        FloatsElsewhere(s, u, i, e);
      }
    }
  }

  lemma FloatsElsewhere(s: State, u: State, i: nat, e: Entry)
    requires i < |s.workers| == |u.workers| && Floats(s, e) && !FloatsAt(s.workers[i], e)
    requires forall k | 0 <= k < |s.workers| && k != i :: u.workers[k] == s.workers[k]
    requires e in s.stranded ==> e in u.stranded
    ensures Floats(u, e)
  {
  }

  lemma RegisteredSettles(r: Run, job: Run, e: Entry)
    requires DistinctIds(r.vectors) && job.enriched == r.enriched && job.vectors == r.vectors
    requires e in RegisteredUpTo(job.enriched, job.vectors, |job.enriched|)
    ensures e in Unmade(r) || RunLaws.IsRow(After(r), e)
  {
  }

  lemma StepKeepsInv(p: Profile, owner: UUID -> string, s: State, t: Step)
    requires Inv(owner, s) && Enabled(p, owner, s, t) && RightPairs(t)
    ensures Inv(owner, Next(p, owner, s, t))
  {
    match t
    case Forget(_, _) => CacheKeepsInv(p, owner, s, t);
    case Remember(_, _) => CacheKeepsInv(p, owner, s, t);
    case Publish(_, _) => CacheKeepsInv(p, owner, s, t);
    case Recall(_, _) => LearnKeepsInv(p, owner, s, t);
    case Fetch(_, _) => LearnKeepsInv(p, owner, s, t);
    case Query(_, _) => LearnKeepsInv(p, owner, s, t);
    case Start(_, _) => TurnKeepsInv(p, owner, s, t);
    case GiveUp(_) => TurnKeepsInv(p, owner, s, t);
    case Embed(_, _, _) => TurnKeepsInv(p, owner, s, t);
    case RegisterMemory(_) => RegisterKeepsInv(p, owner, s, t);
    case RegisterRedis(_, _) => RegisterKeepsInv(p, owner, s, t);
    case Save(_, _) => SaveKeepsInv(p, owner, s, t);
  }

  // ------------------------------------------------------------------ all schedules

  ghost function Play(p: Profile, owner: UUID -> string, s: State, steps: seq<Step>): Option<State>
    decreases |steps|
  {
    if steps == [] then Some(s)
    else if Enabled(p, owner, s, steps[0]) then Play(p, owner, Next(p, owner, s, steps[0]), steps[1..])
    else None
  }

  ghost predicate AllRightPairs(steps: seq<Step>) {
    forall i | 0 <= i < |steps| :: RightPairs(steps[i])
  }

  /** In every reachable state of every interleaving, with failing saves, races, renamed
      ids, evictions and stale answers: every chunk row names the vector row of its own
      hash, and every cached pair is a row, on its way, or stranded by a save that failed. */
  lemma {:induction false} EveryScheduleSafe(p: Profile, owner: UUID -> string, s: State, steps: seq<Step>)
    requires Inv(owner, s) && Play(p, owner, s, steps).Some? && AllRightPairs(steps)
    ensures Inv(owner, Play(p, owner, s, steps).value)
    decreases |steps|
  {
    if steps != [] {
      assert RightPairs(steps[0]);
      StepKeepsInv(p, owner, s, steps[0]);
      EveryScheduleSafe(p, owner, Next(p, owner, s, steps[0]), steps[1..]);
    }
  }

  /** Keys and foreign key hold in every reachable state, whatever was paired with what. */
  lemma {:induction false} EveryScheduleConsistent(p: Profile, owner: UUID -> string, s: State, steps: seq<Step>)
    requires Consistent(s.db) && Play(p, owner, s, steps).Some?
    ensures Consistent(Play(p, owner, s, steps).value.db) && Grows(s.db, Play(p, owner, s, steps).value.db)
    decreases |steps|
  {
    if steps != [] {
      var u := Next(p, owner, s, steps[0]);
      if steps[0].Save? {
        var r := Attempt(s, s.workers[steps[0].i].job, steps[0].faultless);
        if r.committed {
          SaveKeepsConsistent(r.atSave, r.vectors, Final(r));
        }
      }
      StepGrows(p, owner, s, steps[0]);
      EveryScheduleConsistent(p, owner, u, steps[1..]);
      RunLaws.GrowsThrough(s.db, u.db, Play(p, owner, u, steps[1..]).value.db);
    }
  }

  lemma StepGrows(p: Profile, owner: UUID -> string, s: State, t: Step)
    requires Enabled(p, owner, s, t)
    ensures Grows(s.db, Next(p, owner, s, t).db)
  {
    if t.Save? {
      var r := Attempt(s, s.workers[t.i].job, t.faultless);
      SaveGrows(r.atSave, r.vectors, Final(r));
    }
  }

  /** What floats is allowed for by w, or a row. */
  ghost predicate FloatsWithin(s: State, w: World) {
    forall e | Floats(s, e) :: e in w.pending || RunLaws.IsRow(s.db, e)
  }

  /** What is registered along the way is allowed for by w. */
  ghost predicate RegistersWithin(p: Profile, w: World, s: State, steps: seq<Step>)
    requires Play(p, w.owner, s, steps).Some?
    decreases |steps|
  {
    steps == []
    || (RegistersOnly(s, steps[0], w) && RegistersWithin(p, w, Next(p, w.owner, s, steps[0]), steps[1..]))
  }

  ghost predicate RegistersOnly(s: State, t: Step, w: World) {
    (t.RegisterMemory? || t.RegisterRedis?) && Registers(s, t.i) ==> NextPair(s, t.i) in w.pending
  }

  /** The database is sound, and both caches hold nothing but rows and what w allows for. */
  ghost predicate SoundIn(s: State, w: World) {
    && DatabaseSound(s.db, w) && PendingOwned(w)
    && Within(s.cache, Table(s.db), w) && Within(s.redis, Table(s.db), w)
  }

  lemma TracedIsWithin(owner: UUID -> string, s: State, m: map<string, UUID>, w: World)
    requires AllTraced(owner, s, m) && FloatsWithin(s, w)
    ensures Within(m, Table(s.db), w)
  {
    forall h | h in m ensures Known(w, Table(s.db), h, m[h]) {
      assert Traced(owner, s, h, m[h]);
    }
  }

  /** A step lets nothing float but what floated before and what it registers. */
  lemma StepFloats(p: Profile, owner: UUID -> string, s: State, t: Step, e: Entry)
    requires Enabled(p, owner, s, t) && Floats(Next(p, owner, s, t), e)
    ensures Floats(s, e) || ((t.RegisterMemory? || t.RegisterRedis?) && Registers(s, t.i) && e == NextPair(s, t.i))
  {
    var u := Next(p, owner, s, t);
    if e in u.stranded && e !in s.stranded {
      assert t.Save?;
      assert FloatsAt(s.workers[t.i], e);
    } else if e !in s.stranded {
      var k :| 0 <= k < |u.workers| && FloatsAt(u.workers[k], e);
      if u.workers[k] == s.workers[k] {
        assert FloatsAt(s.workers[k], e);
      } else if !FloatsAt(s.workers[k], e) {
        NewlyFloating(p, owner, s, t, k, e);
      }
    }
  }

  lemma NewlyFloating(p: Profile, owner: UUID -> string, s: State, t: Step, k: nat, e: Entry)
    requires Enabled(p, owner, s, t) && k < |s.workers| && Next(p, owner, s, t).workers[k] != s.workers[k]
    requires FloatsAt(Next(p, owner, s, t).workers[k], e) && !FloatsAt(s.workers[k], e)
    ensures (t.RegisterMemory? || t.RegisterRedis?) && k == t.i && Registers(s, k) && e == NextPair(s, k)
  {
  }

  /** What one worker assumes of the others between two of its steps is what any steps of any
      workers do: tables grow, and the state stays sound for every world that allows for what
      the others have registered already and what they register meanwhile. */
  lemma {:induction false} AssumptionMet(p: Profile, w: World, s: State, steps: seq<Step>)
    requires Inv(w.owner, s) && Play(p, w.owner, s, steps).Some? && AllRightPairs(steps)
    requires PendingOwned(w) && FloatsWithin(s, w) && RegistersWithin(p, w, s, steps)
    ensures SoundIn(s, w)
    ensures Grows(s.db, Play(p, w.owner, s, steps).value.db) && SoundIn(Play(p, w.owner, s, steps).value, w)
    decreases |steps|
  {
    TracedIsWithin(w.owner, s, s.cache, w);
    TracedIsWithin(w.owner, s, s.redis, w);
    if steps != [] {
      var u := Next(p, w.owner, s, steps[0]);
      assert RightPairs(steps[0]);
      StepKeepsInv(p, w.owner, s, steps[0]);
      StepGrows(p, w.owner, s, steps[0]);
      forall e | Floats(u, e) ensures e in w.pending || RunLaws.IsRow(u.db, e) {
        StepFloats(p, w.owner, s, steps[0], e);
      }
      AssumptionMet(p, w, u, steps[1..]);
      RunLaws.GrowsThrough(s.db, u.db, Play(p, w.owner, u, steps[1..]).value.db);
    }
  }

  // ------------------------------------------------------- whatever is paired with what

  ghost predicate LocalBatched(s: State, l: Local, batch: UUID -> set<string>) {
    match l
    case Idle => true
    case Looking(_, found) => Batched(found, Table(s.db), batch)
    case Pairing(r, _, _) =>
      Batched(r.found, Table(s.db), batch) && OwnBatch(r.vectors, batch) && KeptInBatch(r.enriched, r.vectors, batch)
  }

  /** The table holds whole batches, and every pair in a cache or in a worker's hands is
      placed. */
  ghost predicate AccountedIn(s: State, batch: UUID -> set<string>) {
    && WholeBatches(s.db.vectors, batch)
    && Batched(s.cache, Table(s.db), batch) && Batched(s.redis, Table(s.db), batch)
    && forall i | 0 <= i < |s.workers| :: LocalBatched(s, s.workers[i], batch)
  }

  /** The ids of a job that starts are those of its batch. */
  ghost predicate OwnIdsOnly(t: Step, batch: UUID -> set<string>) {
    t.Embed? ==> OwnBatch(t.vectors, batch)
  }

  lemma LocalsStay(s: State, u: State, i: nat, batch: UUID -> set<string>)
    requires AccountedIn(s, batch) && Submap(Table(s.db), Table(u.db)) && |u.workers| == |s.workers|
    requires forall k | 0 <= k < |s.workers| && k != i :: u.workers[k] == s.workers[k]
    requires i < |u.workers| ==> LocalBatched(u, u.workers[i], batch)
    ensures forall k | 0 <= k < |u.workers| :: LocalBatched(u, u.workers[k], batch)
    ensures Batched(s.cache, Table(u.db), batch) && Batched(s.redis, Table(u.db), batch)
  {
    forall k | 0 <= k < |u.workers| ensures LocalBatched(u, u.workers[k], batch) {
      if k != i {
        assert LocalBatched(s, s.workers[k], batch);
      }
    }
  }

  lemma TurnKeepsAccounted(p: Profile, owner: UUID -> string, s: State, t: Step, batch: UUID -> set<string>)
    requires AccountedIn(s, batch) && Enabled(p, owner, s, t) && OwnIdsOnly(t, batch)
    requires t.Start? || t.GiveUp? || t.Embed? || t.Recall? || t.Fetch? || t.Query?
    ensures AccountedIn(Next(p, owner, s, t), batch)
  {
    var i, u := t.i, Next(p, owner, s, t);
    assert LocalBatched(s, s.workers[i], batch);
    if t.Embed? {
      PairingInBatch(p, ToEmbed(s.workers[i].raw, s.workers[i].found), t.vectors, t.enriched, batch);
    }
    assert LocalBatched(u, u.workers[i], batch);
    LocalsStay(s, u, i, batch);
  }

  lemma CacheKeepsAccounted(p: Profile, owner: UUID -> string, s: State, t: Step, batch: UUID -> set<string>)
    requires AccountedIn(s, batch) && Enabled(p, owner, s, t)
    requires t.Forget? || t.Remember? || t.Publish? || t.RegisterMemory? || t.RegisterRedis?
    ensures AccountedIn(Next(p, owner, s, t), batch)
  {
    var u := Next(p, owner, s, t);
    if t.Forget? {
      LocalsStay(s, u, |s.workers|, batch);
    } else {
      assert LocalBatched(s, s.workers[t.i], batch);
      assert LocalBatched(u, u.workers[t.i], batch);
      LocalsStay(s, u, t.i, batch);
    }
  }

  lemma SaveKeepsAccounted(p: Profile, owner: UUID -> string, s: State, t: Step, batch: UUID -> set<string>)
    requires AccountedIn(s, batch) && Enabled(p, owner, s, t) && t.Save?
    ensures AccountedIn(Next(p, owner, s, t), batch)
  {
    var u, r := Next(p, owner, s, t), Attempt(s, s.workers[t.i].job, t.faultless);
    assert LocalBatched(s, s.workers[t.i], batch);
    UpsertKeepsBatches(s.db.vectors, r.vectors, batch);
    SaveGrows(r.atSave, r.vectors, Final(r));
    LocalsStay(s, u, t.i, batch);
  }

  lemma StepKeepsAccounted(p: Profile, owner: UUID -> string, s: State, t: Step, batch: UUID -> set<string>)
    requires AccountedIn(s, batch) && Enabled(p, owner, s, t) && OwnIdsOnly(t, batch)
    ensures AccountedIn(Next(p, owner, s, t), batch)
  {
    if t.Save? {
      SaveKeepsAccounted(p, owner, s, t, batch);
    } else if t.Forget? || t.Remember? || t.Publish? || t.RegisterMemory? || t.RegisterRedis? {
      CacheKeepsAccounted(p, owner, s, t, batch);
    } else {
      TurnKeepsAccounted(p, owner, s, t, batch);
    }
  }

  /** In every reachable state of every interleaving, right pairs or wrong, the table holds
      whole batches and both caches hold only pairs whose hash is in the table or was embedded
      together with the id: what one worker assumes of the others for redelivery. */
  lemma {:induction false} EveryScheduleAccounted(
    p: Profile, owner: UUID -> string, s: State, steps: seq<Step>, batch: UUID -> set<string>)
    requires AccountedIn(s, batch) && Play(p, owner, s, steps).Some?
    requires forall i | 0 <= i < |steps| :: OwnIdsOnly(steps[i], batch)
    ensures AccountedIn(Play(p, owner, s, steps).value, batch)
    decreases |steps|
  {
    if steps != [] {
      StepKeepsAccounted(p, owner, s, steps[0], batch);
      EveryScheduleAccounted(p, owner, Next(p, owner, s, steps[0]), steps[1..], batch);
    }
  }

  lemma EmptyInv(owner: UUID -> string, n: nat)
    ensures Inv(owner, State(Database(map[], []), map[], map[], seq(n, _ => Idle), iset{}))
  {
  }

  ghost predicate NobodyPairing(s: State) {
    forall i | 0 <= i < |s.workers| :: !s.workers[i].Pairing?
  }

  /** Once nobody is between registration and save, and nothing was ever stranded, both
      caches are parts of the table. */
  lemma QuietIsCoherent(owner: UUID -> string, s: State)
    requires Inv(owner, s) && NobodyPairing(s) && s.stranded == iset{}
    ensures Submap(s.cache, Table(s.db)) && Submap(s.redis, Table(s.db))
  {
  }

  lemma FailedStrandsAll(r: Run)
    requires Attempted(r) && !r.committed && r.enriched != [] && FreshIds(r.atSave.vectors, r.vectors)
    ensures Unmade(r) != iset{}
  {
    var e := Entry(r.enriched[0].hash, r.vectors[0].id);
    assert e in Registered(r);
    if e.hash in r.atSave.vectors {
      IdOfRow(r.atSave.vectors, e.hash);
    }
    assert e in Unmade(r);
  }

  lemma CommittedStrandsExactly(r: Run)
    requires Attempted(r) && r.committed && HashCorrect(r.enriched, r.vectors)
    requires FreshIds(r.atSave.vectors, r.vectors)
    ensures Unmade(r) == iset{} <==> RunLaws.NoRename(r)
  {
    RunLaws.RegistrationExact(r);
    if Unmade(r) == iset{} {
      forall e | e in Registered(r) ensures RunLaws.IsRow(After(r), e) {
        assert e !in Unmade(r);
      }
    }
  }

  /** A save strands nothing exactly when it commits without renaming an id, or had
      registered nothing. */
  lemma StrandsExactly(r: Run)
    requires Attempted(r) && HashCorrect(r.enriched, r.vectors) && FreshIds(r.atSave.vectors, r.vectors)
    ensures Unmade(r) == iset{} <==> r.enriched == [] || (r.committed && RunLaws.NoRename(r))
  {
    if r.enriched == [] {
      assert Registered(r) == iset{};
    } else if r.committed {
      CommittedStrandsExactly(r);
    } else {
      FailedStrandsAll(r);
    }
  }
}
