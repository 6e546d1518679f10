/** Subscriber and worker together: deliveries of one message drive document runs, and what
    a run leaves behind decides the message's fate. */
module Service {
  import opened Domain
  import opened Repository
  import opened SaveLaws
  import opened Deduplicator
  import opened Enrichment
  import opened Runs
  import opened RunLaws
  import Delivery
  import Worker

  /** What the environment shows one delivery. */
  function OneDelivery(decodes: bool, readable: bool, handled: bool, published: bool): Delivery.Env {
    Delivery.Env(_ => decodes, (_, _) => readable, (_, _) => handled, (_, _) => published)
  }

  /** The body of the worker loop around ProcessDocument, for a message that decoded into
      event, if it did, on its attempt-th delivery: acked as handled exactly when its rows are
      committed or there was nothing to do, and otherwise as the delivery protocol decides. */
  method Deliver<D(==,!new)>(worker: Worker.PipelineWorker<D>, c: Delivery.Config, event: Option<Worker.Event>,
                             attempt: nat, readable: bool, published: bool, io: Worker.IO, ghost w: World)
    returns (a: Delivery.Action, ghost stop: Worker.Stop)
    requires worker.Valid() && IdsDiffer(io.api.newId) && worker.Ends(io)
    modifies worker.dedup, worker.repo, worker.dedup.redis, worker.nlp.lsh
    ensures worker.Valid() && worker.InTime(stop, old(worker.repo.db), worker.repo.db)
    ensures worker.StopsAt(stop, event, io)
    ensures var done := event.Some? && Worker.Succeeded(stop);
            && (a == Delivery.Ack(Delivery.Handled) <==> done)
            && a == Delivery.Decide(c, OneDelivery(event.Some?, readable, done, published), 0, attempt)
    ensures stop.Reached? ==> worker.repo.db == After(stop.run)
    ensures Worker.Asked(stop) ==>
              && WasMemory(stop.tiers.memory, worker.dedup.log, |old(worker.dedup.log)|, worker.dedup.capacity)
              && WasHeld(stop.tiers.redis, worker.dedup.redis.past, |old(worker.dedup.redis.past)|)
    ensures old(worker.dedup.Sound(w)) && Worker.HarmlessStop(stop, w) ==>
              worker.dedup.Sound(w) && Worker.SoundStop(stop, w)
    ensures old(worker.dedup.Accounted(w.batch)) && Worker.OwnStop(stop, w.batch) ==>
              worker.dedup.Accounted(w.batch) && Worker.BatchedStop(stop, w.batch)
  {
    var ok := false;
    stop := Worker.NoEvent;
    if event.Some? {
      ok, stop := worker.ProcessDocument(event, io, w);
    }
    a := Delivery.HandleMessage(c, OneDelivery(event.Some?, readable, ok, published), 0, attempt);
  }

  /** Delivery k of message m decodes and reaches the save in run r; the handler succeeds
      exactly when the save commits. */
  ghost predicate Drives(e: Delivery.Env, m: nat, k: nat, p: Profile, r: Run) {
    e.decodes(m) && IsRun(p, r) && (e.handles(m, k) <==> r.committed)
  }

  /** The pair registered for kept chunk j of the first run is still in memory at run s, and
      its id is no row: the save that should have made it one failed. */
  ghost predicate Poisoned(r: Run, j: nat, s: Run) {
    && j < |r.enriched| && j < |r.vectors|
    && r.enriched[j].hash in s.memory && s.memory[r.enriched[j].hash] == r.vectors[j].id
    && r.vectors[j].id !in Ids(s.atSave.vectors)
    && forall v | v in s.vectors :: v.id != r.vectors[j].id
  }

  lemma {:induction false} PoisonedRunFails(
    e: Delivery.Env, m: nat, i: nat, p: Profile, r: Run, s: Run, j: nat)
    requires IsRun(p, r) && Drives(e, m, i, p, s) && SameDocument(r.raw, s.raw) && Poisoned(r, j, s)
    ensures Delivery.Fails(e, m, i)
  {
    FailedSaveRepeats(p, r, s, j);
  }

  /** A save that fails once, even for a passing reason, is final for its message while the
      cache holds what the run registered: every redelivery fails, and after exactly
      max(1, maxDeliveries) deliveries the message is dead-lettered, or lost when that
      publish fails. */
  lemma {:induction false} PassingFaultIsFinal(
    c: Delivery.Config, e: Delivery.Env, m: nat, p: Profile, runs: nat -> Run, j: nat)
    requires Delivery.Bounded(c, e) && !runs(1).committed
    requires forall i: nat | 1 <= i <= Delivery.Limit(c) :: Drives(e, m, i, p, runs(i))
    requires forall i: nat | 2 <= i <= Delivery.Limit(c) ::
               SameDocument(runs(1).raw, runs(i).raw) && Poisoned(runs(1), j, runs(i))
    ensures var k := Delivery.Limit(c);
            Delivery.Settles(c, e, m, k, if e.publishes(m, k) then Delivery.DeadLettered else Delivery.Lost)
  {
    assert Drives(e, m, 1, p, runs(1));
    forall i: nat | 1 <= i <= Delivery.Limit(c) ensures Delivery.Fails(e, m, i) {
      if i >= 2 {
        PoisonedRunFails(e, m, i, p, runs(1), runs(i), j);
      }
    }
    Delivery.AlwaysFailing(c, e, m);
  }

  /** When a failed first delivery is made good by the second: exactly when that one meets no
      fault and the tables admit its run, which includes that no answer of its lookup
      dangles. */
  lemma RecoversExactly(c: Delivery.Config, e: Delivery.Env, m: nat, p: Profile, r: Run, s: Run)
    requires Drives(e, m, 1, p, r) && !r.committed && !Delivery.GivesUp(c, e, m, 1)
    requires Drives(e, m, 2, p, s) && UniqueRows(s.raw) && Consistent(s.atSave)
    requires FreshIds(s.atSave.vectors, s.vectors)
    ensures Delivery.Settles(c, e, m, 2, Delivery.Handled)
            <==> NoFault(s.faults, |s.vectors|, |Final(s)|) && Admissible(s)
  {
    Delivery.SecondHandled(c, e, m);
    CommitsExactly(p, s);
  }

  /** A run that had nothing to register leaves nothing that could dangle: over caches that
      were right before it, the second delivery settles the message unless it meets a fault,
      a repeated hash or a key that is taken. */
  lemma NothingRegisteredRecovers(
    c: Delivery.Config, e: Delivery.Env, m: nat, p: Profile, r: Run, s: Run, w: World)
    requires Drives(e, m, 1, p, r) && !r.committed && !Delivery.GivesUp(c, e, m, 1)
    requires Drives(e, m, 2, p, s) && UniqueRows(s.raw) && Consistent(s.atSave)
    requires FreshIds(s.atSave.vectors, s.vectors)
    requires SameDocument(r.raw, s.raw) && Grows(r.atSave, s.before) && s.lost == {}
    requires r.enriched == [] && w.pending == iset{} && Within(r.found, Table(r.atSave), w)
    requires Within(s.found, Table(s.atSave), WithPending(w, Registered(r)))
    ensures Delivery.Settles(c, e, m, 2, Delivery.Handled)
            <==> NoFault(s.faults, |s.vectors|, |Final(s)|) && NoRepeats(s.vectors) && KeysFree(s)
  {
    RecoversExactly(c, e, m, p, r, s);
    assert Registered(r) == iset{};
    RightAnswersSettle(s);
    NothingKeptAgain(p, r, s);
  }

  lemma StillKnown(p: Profile, r: Run, s: Run, k: nat)
    requires IsRun(p, s) && SameDocument(r.raw, s.raw) && k < |r.raw| && r.raw[k].hash in r.found
    requires AnswersInTable(r) && Grows(r.atSave, s.before) && s.lost == {}
    ensures s.raw[k].hash in s.found
  {
    assert SameChunk(r.raw[k], s.raw[k]) && s.raw[k] in s.raw;
    assert s.raw[k].hash in Table(s.before).Keys * ChunkHashes(s.raw) - s.lost;
  }

  /** A chunk the second run keeps was new to the first run, which would have kept it too. */
  lemma NothingKeptAgain(p: Profile, r: Run, s: Run)
    requires IsRun(p, r) && IsRun(p, s) && SameDocument(r.raw, s.raw) && r.enriched == []
    requires AnswersInTable(r) && Grows(r.atSave, s.before) && s.lost == {}
    ensures s.enriched == []
  {
    forall k: nat | k < |r.raw| && r.raw[k].hash in r.found ensures s.raw[k].hash in s.found {
      StillKnown(p, r, s, k);
    }
    if s.enriched != [] {
      var i := KeptOrigin(p, s, 0);
      KeptInOrder(p, ToEmbed(s.raw, s.found));
      var k := ToEmbedFrom(s.raw, s.found, i);
      assert SameChunk(r.raw[k], s.raw[k]) && r.raw[k].hash !in r.found;
      var o := ToEmbedHolds(r.raw, r.found, k);
      var at := KeptRank(p, r, o);
    }
  }

  /** An event takes effect at most once: after a call that committed rows, every later call
      over the same document id and text reports failure, however often and in whatever
      company the event is delivered, whatever failed, went stale or was paired wrongly
      before, in between or in these calls themselves. */
  lemma OneEffectPerEvent<D(!new)>(
    worker: Worker.PipelineWorker<D>, stops: seq<Worker.Stop>, events: seq<Option<Worker.Event>>,
    ios: seq<Worker.IO>, db: Database, batch: UUID -> set<string>, i: nat, j: nat)
    requires worker.History(stops, events, ios, db) && i < j < |stops|
    requires stops[i].Reached? && CommitsRows(stops[i].run) && BatchedRun(stops[i].run, batch)
    requires worker.SameWork(events[i], ios[i], events[j], ios[j])
    requires events[j].value.documentId != "" && ios[j].lookup.rowsLost == {}
    ensures !Worker.Succeeded(stops[j])
  {
    assert worker.StopsAt(stops[i], events[i], ios[i]) && worker.StopsAt(stops[j], events[j], ios[j]);
    if stops[j].Reached? {
      assert Worker.Over(stops[i], stops[j].run.before);
    }
    worker.LaterCallFails(stops[i], stops[j], events[i], ios[i], events[j], ios[j], batch);
  }

  /** The same for a worker at work: on caches and tables that are accounted for, each handled
      event commits rows in at most one of its deliveries, and every later one fails. */
  method HandleOnce<D(==,!new)>(worker: Worker.PipelineWorker<D>, events: seq<Option<Worker.Event>>,
                                ios: seq<Worker.IO>, ghost w: World)
    returns (oks: seq<bool>, ghost stops: seq<Worker.Stop>)
    requires worker.Valid() && |events| == |ios| && worker.dedup.Accounted(w.batch)
    requires forall i | 0 <= i < |ios| :: IdsDiffer(ios[i].api.newId) && worker.Ends(ios[i])
    modifies worker.dedup, worker.repo, worker.dedup.redis, worker.nlp.lsh
    ensures |oks| == |stops| == |events| && worker.History(stops, events, ios, worker.repo.db)
    ensures Worker.AllOwn(stops, w.batch) ==> worker.dedup.Accounted(w.batch)
    ensures Worker.AllOwn(stops, w.batch) ==>
              forall i, j | 0 <= i < j < |stops| && Repeats(worker, stops, events, ios, i, j) :: !oks[j]
  {
    oks, stops := worker.HandleEvents(events, ios, w);
    if Worker.AllOwn(stops, w.batch) {
      forall i, j | 0 <= i < j < |stops| && Repeats(worker, stops, events, ios, i, j) ensures !oks[j] {
        assert Worker.BatchedStop(stops[i], w.batch);
        OneEffectPerEvent(worker, stops, events, ios, worker.repo.db, w.batch, i, j);
      }
    }
  }

  /** Event j delivers again what call i committed rows for, and its lookup loses no row. */
  ghost predicate Repeats<D(!new)>(
    worker: Worker.PipelineWorker<D>, stops: seq<Worker.Stop>, events: seq<Option<Worker.Event>>,
    ios: seq<Worker.IO>, i: int, j: int)
    requires 0 <= i < j < |stops| == |events| == |ios|
  {
    && stops[i].Reached? && CommitsRows(stops[i].run)
    && worker.SameWork(events[i], ios[i], events[j], ios[j])
    && events[j].value.documentId != "" && ios[j].lookup.rowsLost == {}
  }
}
