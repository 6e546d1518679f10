/** The embedding scheduler (vectorizer.go): sub-batches of 16 run as goroutines under an
    8-slot semaphore, report failures on a buffered channel and write their vectors into
    their own slot. Goroutines are modelled as interleaved atomic steps. */
module Vectorizer {
  import opened Domain

  const MAX_RETRIES: nat := 3
  const SUB_BATCH_SIZE: nat := 16
  const MAX_CONCURRENT_CALLS: nat := 8

  datatype Failure = NoClient | Exhausted | Cancelled

  datatype Reply = ApiError | Items(embeddings: seq<seq<real>>)

  /** The embedding service: its reply to each attempt of each sub-batch, whether the
      context ends during the pause after an attempt, and the id generator. */
  datatype Api = Api(
    configured: bool, reply: (nat, nat) -> Reply, cancelled: (nat, nat) -> bool, newId: nat -> UUID)

  datatype Outcome = Ok(vectors: seq<Vector>) | Err(failure: Failure)

  // ------------------------------------------------------------- one sub-batch

  /** A usable reply has one embedding per chunk. */
  predicate Usable(api: Api, b: nat, n: nat, attempt: nat) {
    api.reply(b, attempt).Items? && |api.reply(b, attempt).embeddings| == n
  }

  /** The retry loop reaches this attempt: all earlier ones failed and no pause was cut short. */
  ghost predicate Reached(api: Api, b: nat, n: nat, attempt: nat) {
    1 <= attempt <= MAX_RETRIES
    && forall k | 1 <= k < attempt :: !Usable(api, b, n, k) && !api.cancelled(b, k)
  }

  ghost predicate Succeeds(api: Api, b: nat, n: nat) {
    api.configured && exists k: nat :: Reached(api, b, n, k) && Usable(api, b, n, k)
  }

  /** The attempt that settles a sub-batch, if there is one. */
  ghost function Winner(api: Api, b: nat, n: nat): (k: nat)
    requires Succeeds(api, b, n)
    ensures Reached(api, b, n, k) && Usable(api, b, n, k)
  {
    var k: nat :| Reached(api, b, n, k) && Usable(api, b, n, k);
    k
  }

  lemma WinnerUnique(api: Api, b: nat, n: nat, k: nat)
    requires api.configured && Reached(api, b, n, k) && Usable(api, b, n, k)
    ensures Winner(api, b, n) == k
  {
  }

  /** The vector of chunk j of sub-batch b: the chunk's own hash, the next fresh id and the
      embedding at the chunk's position in the winning reply. */
  ghost function VectorFor(api: Api, b: nat, chunks: seq<Chunk>, j: nat): Vector
    requires j < |chunks| && Succeeds(api, b, |chunks|)
  {
    Vector(api.newId(b * SUB_BATCH_SIZE + j), chunks[j].hash,
           api.reply(b, Winner(api, b, |chunks|)).embeddings[j])
  }

  ghost function VectorsFor(api: Api, b: nat, chunks: seq<Chunk>): (vs: seq<Vector>)
    requires Succeeds(api, b, |chunks|)
  {
    seq(|chunks|, j requires 0 <= j < |chunks| => VectorFor(api, b, chunks, j))
  }

  /** The context ends in the pause after an unusable attempt the loop got to. */
  ghost predicate CutShort(api: Api, b: nat, n: nat) {
    exists k: nat :: Reached(api, b, n, k) && k < MAX_RETRIES && !Usable(api, b, n, k) && api.cancelled(b, k)
  }

  /** What a sub-batch must report: its vectors, or why there are none. */
  ghost predicate IsOutcome(o: Outcome, api: Api, b: nat, chunks: seq<Chunk>) {
    match o
    case Ok(vs) => Succeeds(api, b, |chunks|) && vs == VectorsFor(api, b, chunks)
    case Err(e) =>
      && !Succeeds(api, b, |chunks|)
      && e == if !api.configured then NoClient else if CutShort(api, b, |chunks|) then Cancelled else Exhausted
  }

  /** The retry loop: at most three calls; it succeeds exactly when one of them is usable
      before the context ends. */
  method ProcessSubBatch(b: nat, chunks: seq<Chunk>, api: Api) returns (o: Outcome)
    requires chunks != []
    ensures IsOutcome(o, api, b, chunks)
  {
    if !api.configured {
      return Err(NoClient);
    }
    var attempt := 1;
    while !Usable(api, b, |chunks|, attempt)
      invariant Reached(api, b, |chunks|, attempt)
      decreases MAX_RETRIES - attempt
    {
      if attempt == MAX_RETRIES {
        AllAttemptsUsed(api, b, |chunks|);
        return Err(Exhausted);
      }
      if api.cancelled(b, attempt) {
        NothingBeyond(api, b, |chunks|, attempt);
        return Err(Cancelled);
      }
      attempt := attempt + 1;
    }
    WinnerUnique(api, b, |chunks|, attempt);
    var items := api.reply(b, attempt).embeddings;
    var vectors := [];
    for j := 0 to |items|
      invariant |vectors| == j
      invariant forall k | 0 <= k < j :: vectors[k] == VectorFor(api, b, chunks, k)
    {
      vectors := vectors + [Vector(api.newId(b * SUB_BATCH_SIZE + j), chunks[j].hash, items[j])];
    }
    o := Ok(vectors);
  }

  lemma NothingBeyond(api: Api, b: nat, n: nat, attempt: nat)
    requires Reached(api, b, n, attempt) && !Usable(api, b, n, attempt) && api.cancelled(b, attempt)
    ensures !Succeeds(api, b, n)
  {
  }

  lemma AllAttemptsUsed(api: Api, b: nat, n: nat)
    requires Reached(api, b, n, MAX_RETRIES) && !Usable(api, b, n, MAX_RETRIES)
    ensures !Succeeds(api, b, n) && !CutShort(api, b, n)
  {
  }

  // -------------------------------------------------- goroutines, step by step

  /** Where a goroutine is: before the semaphore, calling the service, sending its error,
      about to give the slot back, finished. */
  datatype Pc = Waiting | Holding | Sending(failure: Failure) | Releasing | Done

  /** Shared state: the semaphore's fill, the error channel and the result slots. */
  datatype Sched = Sched(pcs: seq<Pc>, tokens: nat, errs: seq<Failure>, slots: seq<Option<seq<Vector>>>)

  function Init(n: nat): Sched {
    Sched(seq(n, _ => Waiting), 0, [], seq(n, _ => None))
  }

  /** A goroutine can move unless it is finished, the semaphore is full, or the error
      channel, buffered for one error per goroutine, is full. */
  predicate Enabled(s: Sched, i: int) {
    && 0 <= i < |s.pcs| == |s.slots|
    && match s.pcs[i]
       case Waiting => s.tokens < MAX_CONCURRENT_CALLS
       case Holding => true
       case Sending(_) => |s.errs| < |s.pcs|
       case Releasing => s.tokens > 0
       case Done => false
  }

  /** One atomic step of goroutine i, whose service calls end in o. */
  function Next(s: Sched, i: int, o: Outcome): (t: Sched)
    requires Enabled(s, i)
  {
    match s.pcs[i]
    case Waiting => s.(pcs := s.pcs[i := Holding], tokens := s.tokens + 1)
    case Holding =>
      (match o
       case Ok(vs) => s.(pcs := s.pcs[i := Releasing], slots := s.slots[i := Some(vs)])
       case Err(e) => s.(pcs := s.pcs[i := Sending(e)]))
    case Sending(e) => s.(pcs := s.pcs[i := Releasing], errs := s.errs + [e])
    case Releasing => s.(pcs := s.pcs[i := Done], tokens := s.tokens - 1)
    case Done => s
  }

  predicate HasSlot(pc: Pc) {
    pc.Holding? || pc.Sending? || pc.Releasing?
  }

  predicate Settled(pc: Pc) {
    pc.Releasing? || pc.Done?
  }

  function Holders(pcs: seq<Pc>): set<nat> {
    set i: nat | i < |pcs| && HasSlot(pcs[i])
  }

  /** The goroutines that have put an error on the channel. */
  function Senders(pcs: seq<Pc>, os: seq<Outcome>): set<nat>
    requires |pcs| == |os|
  {
    set i: nat | i < |pcs| && Settled(pcs[i]) && os[i].Err?
  }

  /** Holds in every reachable state, whatever the schedule. */
  ghost predicate Inv(s: Sched, os: seq<Outcome>) {
    && |s.pcs| == |s.slots| == |os|
    && s.tokens == |Holders(s.pcs)| <= MAX_CONCURRENT_CALLS
    && |s.errs| == |Senders(s.pcs, os)|
    && (forall e | e in s.errs :: Err(e) in os)
    && forall i | 0 <= i < |os| :: SlotInv(s.pcs[i], s.slots[i], os[i])
  }

  ghost predicate SlotInv(pc: Pc, slot: Option<seq<Vector>>, o: Outcome) {
    && (pc.Sending? ==> o == Err(pc.failure))
    && slot == if Settled(pc) && o.Ok? then Some(o.vectors) else None
  }

  lemma InitInv(os: seq<Outcome>)
    ensures Inv(Init(|os|), os)
  {
  }

  lemma HoldersUpdate(pcs: seq<Pc>, i: nat, pc: Pc)
    requires i < |pcs|
    ensures |Holders(pcs[i := pc])| ==
            |Holders(pcs)| - (if HasSlot(pcs[i]) then 1 else 0) + (if HasSlot(pc) then 1 else 0)
  {
    assert Holders(pcs) - {i} == Holders(pcs[i := pc]) - {i};
    SizeUpdate(Holders(pcs), Holders(pcs[i := pc]), i);
  }

  lemma SendersUpdate(pcs: seq<Pc>, os: seq<Outcome>, i: nat, pc: Pc)
    requires i < |pcs| == |os|
    ensures |Senders(pcs[i := pc], os)| ==
            |Senders(pcs, os)| - (if Settled(pcs[i]) && os[i].Err? then 1 else 0)
            + (if Settled(pc) && os[i].Err? then 1 else 0)
  {
    assert Senders(pcs, os) - {i} == Senders(pcs[i := pc], os) - {i};
    SizeUpdate(Senders(pcs, os), Senders(pcs[i := pc], os), i);
  }

  lemma StepKeepsInv(s: Sched, os: seq<Outcome>, i: nat)
    requires Inv(s, os) && Enabled(s, i)
    ensures Inv(Next(s, i, os[i]), os)
  {
    var t := Next(s, i, os[i]);
    HoldersUpdate(s.pcs, i, t.pcs[i]);
    SendersUpdate(s.pcs, os, i, t.pcs[i]);
    assert t.pcs == s.pcs[i := t.pcs[i]];
    assert SlotInv(s.pcs[i], s.slots[i], os[i]);
    forall j | 0 <= j < |os| ensures SlotInv(t.pcs[j], t.slots[j], os[j]) {
      assert SlotInv(s.pcs[j], s.slots[j], os[j]);
    }
    if s.pcs[i].Sending? {
      assert os[i] in os;
    }
  }

  /** No goroutine ever waits for room on the error channel. */
  lemma SenderNeverBlocks(s: Sched, os: seq<Outcome>, i: nat)
    requires Inv(s, os) && i < |s.pcs| && s.pcs[i].Sending?
    ensures Enabled(s, i)
  {
    var all := Below(|s.pcs|);
    assert Senders(s.pcs, os) <= all - {i};
    SubsetSize(Senders(s.pcs, os), all - {i});
  }

  ghost predicate AllDone(s: Sched) {
    forall i | 0 <= i < |s.pcs| :: s.pcs[i].Done?
  }

  /** Deadlock freedom: until all goroutines are done, one of them can move. */
  lemma SomeStepEnabled(s: Sched, os: seq<Outcome>) returns (i: nat)
    requires Inv(s, os) && !AllDone(s)
    ensures Enabled(s, i)
  {
    if k: nat :| k < |s.pcs| && HasSlot(s.pcs[k]) {
      i := k;
      assert i in Holders(s.pcs);
      if s.pcs[i].Sending? {
        SenderNeverBlocks(s, os, i);
      }
    } else {
      assert Holders(s.pcs) == {};
      i :| i < |s.pcs| && !s.pcs[i].Done?;
    }
  }

  // ------------------------------------------------------------ whole schedules

  function Rank(pc: Pc): nat {
    match pc
    case Waiting => 4
    case Holding => 3
    case Sending(_) => 2
    case Releasing => 1
    case Done => 0
  }

  function Work(pcs: seq<Pc>): nat {
    if pcs == [] then 0 else Work(pcs[..|pcs| - 1]) + Rank(pcs[|pcs| - 1])
  }

  lemma {:induction false} WorkUpdate(pcs: seq<Pc>, i: nat, pc: Pc)
    requires i < |pcs|
    ensures Work(pcs[i := pc]) == Work(pcs) - Rank(pcs[i]) + Rank(pc)
  {
    var n := |pcs| - 1;
    if i < n {
      WorkUpdate(pcs[..n], i, pc);
      assert pcs[i := pc][..n] == pcs[..n][i := pc];
    } else {
      assert pcs[i := pc][..n] == pcs[..n];
    }
  }

  lemma StepDoesWork(s: Sched, i: nat, o: Outcome)
    requires Enabled(s, i)
    ensures Work(Next(s, i, o).pcs) < Work(s.pcs)
  {
    WorkUpdate(s.pcs, i, Next(s, i, o).pcs[i]);
  }

  lemma {:induction false} WorkAtStart(n: nat)
    ensures Work(Init(n).pcs) == 4 * n
  {
    if n > 0 {
      WorkAtStart(n - 1);
      assert Init(n).pcs[..n - 1] == Init(n - 1).pcs;
    }
  }

  /** The states that a list of scheduling choices runs through. */
  ghost function Play(s: Sched, os: seq<Outcome>, picks: seq<nat>): Option<Sched>
    requires |s.pcs| == |s.slots| == |os|
    decreases |picks|
  {
    if picks == [] then Some(s)
    else if Enabled(s, picks[0]) then Play(Next(s, picks[0], os[picks[0]]), os, picks[1..])
    else None
  }

  /** Every state of every schedule satisfies the invariant, and no schedule of n
      goroutines is longer than 4n steps. */
  lemma {:induction false} EveryScheduleSafe(s: Sched, os: seq<Outcome>, picks: seq<nat>)
    requires Inv(s, os) && Play(s, os, picks).Some?
    ensures Inv(Play(s, os, picks).value, os)
    ensures |picks| + Work(Play(s, os, picks).value.pcs) <= Work(s.pcs)
    decreases |picks|
  {
    if picks != [] {
      StepKeepsInv(s, os, picks[0]);
      StepDoesWork(s, picks[0], os[picks[0]]);
      EveryScheduleSafe(Next(s, picks[0], os[picks[0]]), os, picks[1..]);
    }
  }

  /** The result slots and the error report once everyone is done do not depend on the
      schedule: they are what running the sub-batches one after the other gives. */
  lemma FinalState(s: Sched, os: seq<Outcome>)
    requires Inv(s, os) && AllDone(s)
    ensures s.tokens == 0
    ensures s.slots == seq(|os|, i requires 0 <= i < |os| => if os[i].Ok? then Some(os[i].vectors) else None)
    ensures s.errs == [] <==> forall i | 0 <= i < |os| :: os[i].Ok?
  {
    forall i | 0 <= i < |os| ensures s.slots[i] == if os[i].Ok? then Some(os[i].vectors) else None {
      assert SlotInv(s.pcs[i], s.slots[i], os[i]);
    }
    assert Holders(s.pcs) == {};
    if s.errs == [] {
      assert Senders(s.pcs, os) == {};
      forall i: nat | i < |os| ensures os[i].Ok? {
        assert i !in Senders(s.pcs, os);
      }
    } else {
      assert Senders(s.pcs, os) != {};
    }
  }

  lemma ScheduleIndependent(os: seq<Outcome>, p: seq<nat>, q: seq<nat>)
    requires Play(Init(|os|), os, p).Some? && AllDone(Play(Init(|os|), os, p).value)
    requires Play(Init(|os|), os, q).Some? && AllDone(Play(Init(|os|), os, q).value)
    ensures var s, t := Play(Init(|os|), os, p).value, Play(Init(|os|), os, q).value;
            s.slots == t.slots && (s.errs == [] <==> t.errs == []) && s.tokens == t.tokens == 0
    ensures |p| <= 4 * |os|
  {
    InitInv(os);
    WorkAtStart(|os|);
    EveryScheduleSafe(Init(|os|), os, p);
    EveryScheduleSafe(Init(|os|), os, q);
    FinalState(Play(Init(|os|), os, p).value, os);
    FinalState(Play(Init(|os|), os, q).value, os);
  }

  // ------------------------------------------------------------- the whole call

  function BatchCount(n: nat): nat {
    (n + SUB_BATCH_SIZE - 1) / SUB_BATCH_SIZE
  }

  function Batch(chunks: seq<Chunk>, b: nat): seq<Chunk>
    requires b < BatchCount(|chunks|)
  {
    chunks[b * SUB_BATCH_SIZE..Min(b * SUB_BATCH_SIZE + SUB_BATCH_SIZE, |chunks|)]
  }

  ghost predicate EveryBatchSucceeds(chunks: seq<Chunk>, api: Api) {
    forall b: nat | b < BatchCount(|chunks|) :: Succeeds(api, b, |Batch(chunks, b)|)
  }

  /** Vector p belongs to chunk p: its hash, a fresh id, and the embedding the service gave
      for that chunk's place in its sub-batch. */
  ghost predicate VectorOfChunk(v: Vector, chunks: seq<Chunk>, api: Api, p: nat)
    requires p < |chunks|
  {
    var b, j := p / SUB_BATCH_SIZE, p % SUB_BATCH_SIZE;
    && b < BatchCount(|chunks|) && j < |Batch(chunks, b)|
    && Succeeds(api, b, |Batch(chunks, b)|)
    && v == VectorFor(api, b, Batch(chunks, b), j)
    && v.hash == chunks[p].hash && v.id == api.newId(p)
  }

  /** One vector per chunk, made from it. */
  ghost predicate VectorsOfChunks(vs: seq<Vector>, chunks: seq<Chunk>, api: Api) {
    |vs| == |chunks| && forall p: nat | p < |chunks| :: VectorOfChunk(vs[p], chunks, api, p)
  }

  /** The k-th of at most three calls for sub-batch b brought as many embeddings as the sub-batch
      has chunks; the calls before it did not, and no pause before it was cut short. */
  ghost predicate ServedAt(api: Api, b: nat, size: nat, k: nat) {
    && api.configured && 1 <= k <= 3
    && api.reply(b, k).Items? && |api.reply(b, k).embeddings| == size
    && forall i | 1 <= i < k ::
         && !(api.reply(b, i).Items? && |api.reply(b, i).embeddings| == size)
         && !api.cancelled(b, i)
  }

  ghost predicate Served(api: Api, b: nat, size: nat) {
    exists k: nat :: ServedAt(api, b, size, k)
  }

  lemma ServedIsReached(api: Api, b: nat, n: nat, k: nat)
    ensures ServedAt(api, b, n, k) <==> api.configured && Reached(api, b, n, k) && Usable(api, b, n, k)
  {
    if Reached(api, b, n, k) && Usable(api, b, n, k) {
      forall i: nat | 1 <= i < k
        ensures !(api.reply(b, i).Items? && |api.reply(b, i).embeddings| == n) && !api.cancelled(b, i)
      {
        assert !Usable(api, b, n, i);
      }
    }
    if ServedAt(api, b, n, k) {
      forall i: nat | 1 <= i < k ensures !Usable(api, b, n, i) && !api.cancelled(b, i) {
      }
      assert Reached(api, b, n, k);
    }
  }

  lemma SucceedsExactly(api: Api, b: nat, n: nat)
    ensures Succeeds(api, b, n) <==> Served(api, b, n)
    ensures Succeeds(api, b, n) ==> ServedAt(api, b, n, Winner(api, b, n))
  {
    if k: nat :| ServedAt(api, b, n, k) {
      ServedIsReached(api, b, n, k);
    }
    if Succeeds(api, b, n) {
      ServedIsReached(api, b, n, Winner(api, b, n));
    }
  }

  lemma BatchExactly(chunks: seq<Chunk>, b: nat)
    ensures b * 16 < |chunks| <==> b < BatchCount(|chunks|)
    ensures b < BatchCount(|chunks|) ==> |Batch(chunks, b)| == Min(16, |chunks| - b * 16)
  {
  }

  /** When all goes well: exactly when each run of sixteen chunks, the last perhaps shorter, is
      served. */
  lemma EveryBatchExactly(chunks: seq<Chunk>, api: Api)
    ensures EveryBatchSucceeds(chunks, api) <==>
              forall b: nat | b * 16 < |chunks| :: Served(api, b, Min(16, |chunks| - b * 16))
  {
    if EveryBatchSucceeds(chunks, api) {
      forall b: nat | b * 16 < |chunks| ensures Served(api, b, Min(16, |chunks| - b * 16)) {
        BatchExactly(chunks, b);
        SucceedsExactly(api, b, |Batch(chunks, b)|);
      }
    }
    if forall b: nat | b * 16 < |chunks| :: Served(api, b, Min(16, |chunks| - b * 16)) {
      forall b: nat | b < BatchCount(|chunks|) ensures Succeeds(api, b, |Batch(chunks, b)|) {
        BatchExactly(chunks, b);
        SucceedsExactly(api, b, |Batch(chunks, b)|);
      }
    }
  }

  /** Chunk p's vector: a fresh id, the chunk's hash, and the embedding at the chunk's place in
      the reply that served its run of sixteen. */
  lemma VectorsExactly(vs: seq<Vector>, chunks: seq<Chunk>, api: Api, p: nat) returns (k: nat)
    requires VectorsOfChunks(vs, chunks, api) && p < |chunks|
    ensures ServedAt(api, p / 16, Min(16, |chunks| - p / 16 * 16), k)
    ensures vs[p] == Vector(api.newId(p), chunks[p].hash, api.reply(p / 16, k).embeddings[p % 16])
  {
    assert VectorOfChunk(vs[p], chunks, api, p);
    var b := p / SUB_BATCH_SIZE;
    BatchExactly(chunks, b);
    SucceedsExactly(api, b, |Batch(chunks, b)|);
    k := Winner(api, b, |Batch(chunks, b)|);
  }

  lemma BatchNonEmpty(chunks: seq<Chunk>, b: nat)
    requires b < BatchCount(|chunks|)
    ensures b * SUB_BATCH_SIZE < |chunks| && Batch(chunks, b) != []
  {
  }

  ghost predicate AreOutcomes(os: seq<Outcome>, chunks: seq<Chunk>, api: Api) {
    |os| == BatchCount(|chunks|) && forall b: nat | b < |os| :: IsOutcome(os[b], api, b, Batch(chunks, b))
  }

  /** One scheduling decision carried out: goroutine i takes its next step. */
  method Advance(s: Sched, i: nat, chunks: seq<Chunk>, api: Api, ghost os: seq<Outcome>) returns (t: Sched)
    requires AreOutcomes(os, chunks, api) && Inv(s, os) && Enabled(s, i)
    ensures Inv(t, os) && Work(t.pcs) < Work(s.pcs)
  {
    var o := Err(NoClient);
    if s.pcs[i].Holding? {
      BatchNonEmpty(chunks, i);
      o := ProcessSubBatch(i, Batch(chunks, i), api);
    }
    StepKeepsInv(s, os, i);
    StepDoesWork(s, i, os[i]);
    t := Next(s, i, o);
    assert t == Next(s, i, os[i]);
  }

  /** Goroutines are picked in an arbitrary order until all are done; the loop proves that
      some step is always enabled and that every choice of steps ends. */
  method RunGoroutines(chunks: seq<Chunk>, api: Api, ghost os: seq<Outcome>) returns (s: Sched)
    requires AreOutcomes(os, chunks, api)
    ensures Inv(s, os) && AllDone(s)
  {
    var n := BatchCount(|chunks|);
    s := Init(n);
    InitInv(os);
    while exists i :: 0 <= i < n && !s.pcs[i].Done?
      invariant Inv(s, os)
      decreases Work(s.pcs)
    {
      ghost var k := SomeStepEnabled(s, os);
      var i: nat :| i < n && Enabled(s, i);
      s := Advance(s, i, chunks, api, os);
    }
  }

  lemma OutcomesExist(chunks: seq<Chunk>, api: Api, n: nat) returns (os: seq<Outcome>)
    requires n <= BatchCount(|chunks|)
    ensures |os| == n && forall b: nat | b < n :: IsOutcome(os[b], api, b, Batch(chunks, b))
  {
    os := [];
    for b := 0 to n
      invariant |os| == b && forall c: nat | c < b :: IsOutcome(os[c], api, c, Batch(chunks, c))
    {
      var batch := Batch(chunks, b);
      os := os + [if Succeeds(api, b, |batch|) then Ok(VectorsFor(api, b, batch))
                  else Err(if !api.configured then NoClient
                           else if CutShort(api, b, |batch|) then Cancelled else Exhausted)];
    }
  }

  /** Success yields exactly one vector per chunk, in order and with the chunk's hash,
      whatever the schedule; failure is reported exactly when some sub-batch failed. */
  method GenerateBatchEmbeddings(chunks: seq<Chunk>, api: Api) returns (o: Outcome)
    ensures o.Ok? <==> EveryBatchSucceeds(chunks, api)
    ensures o.Ok? ==> VectorsOfChunks(o.vectors, chunks, api)
    ensures o.Err? ==> exists b: nat :: b < BatchCount(|chunks|) && IsOutcome(o, api, b, Batch(chunks, b))
  {
    if chunks == [] {
      return Ok([]);
    }
    if |chunks| <= SUB_BATCH_SIZE {
      assert Batch(chunks, 0) == chunks;
      o := ProcessSubBatch(0, chunks, api);
      if o.Ok? {
        ConcatBatch(chunks, api, 0, []);
      }
      return;
    }
    ghost var os := OutcomesExist(chunks, api, BatchCount(|chunks|));
    var s := RunGoroutines(chunks, api, os);
    FinalState(s, os);
    if s.errs != [] {
      o := Err(s.errs[0]);
      assert s.errs[0] in s.errs;
      return;
    }
    var vectors := [];
    for b := 0 to |s.slots|
      invariant |vectors| == Min(b * SUB_BATCH_SIZE, |chunks|)
      invariant forall p: nat | p < |vectors| :: VectorOfChunk(vectors[p], chunks, api, p)
    {
      assert IsOutcome(os[b], api, b, Batch(chunks, b));
      ConcatBatch(chunks, api, b, vectors);
      vectors := vectors + s.slots[b].value;
    }
    o := Ok(vectors);
  }

  /** Appending the vectors of batch b to those of the earlier ones keeps positions aligned. */
  lemma ConcatBatch(chunks: seq<Chunk>, api: Api, b: nat, vectors: seq<Vector>)
    requires b < BatchCount(|chunks|) && |vectors| == Min(b * SUB_BATCH_SIZE, |chunks|)
    requires forall p: nat | p < |vectors| :: VectorOfChunk(vectors[p], chunks, api, p)
    requires Succeeds(api, b, |Batch(chunks, b)|)
    ensures var all := vectors + VectorsFor(api, b, Batch(chunks, b));
            && |all| == Min((b + 1) * SUB_BATCH_SIZE, |chunks|)
            && forall p: nat | p < |all| :: VectorOfChunk(all[p], chunks, api, p)
  {
    var all := vectors + VectorsFor(api, b, Batch(chunks, b));
    BatchNonEmpty(chunks, b);
    forall p: nat | p < |all| ensures VectorOfChunk(all[p], chunks, api, p) {
      if p >= |vectors| {
        Place(p, b);
      }
    }
  }

  lemma Place(p: nat, b: nat)
    requires b * SUB_BATCH_SIZE <= p < (b + 1) * SUB_BATCH_SIZE
    ensures p / SUB_BATCH_SIZE == b && p % SUB_BATCH_SIZE == p - b * SUB_BATCH_SIZE
  {
  }
}
