/** The subscriber (event_subscriber.go): a pool of workers fed by a bounded channel acks,
    negatively acks with a delay, or dead-letters each delivery of an at-least-once stream.
    Broker, channel and workers are one transition system; no delivery outlives its ack
    wait. */
module Delivery {
  import opened Domain

  const NANOS: nat := 1_000_000_000
  const TWO_63: nat := 0x8000_0000_0000_0000
  const TWO_64: nat := 0x1_0000_0000_0000_0000

  /** What becomes of an acked message. Lost: acked, but the dead-letter publish failed. */
  datatype Ending = Handled | DeadLettered | Lost

  datatype Action = Ack(ending: Ending) | Nak(delay: int)

  datatype Config = Config(workers: nat, maxDeliveries: nat, hasDlq: bool)

  /** The environment: which messages decode, and per delivery whether the metadata can be
      read, the handler succeeds and a dead-letter publish succeeds. */
  datatype Env = Env(
    decodes: nat -> bool, metadata: (nat, nat) -> bool, handles: (nat, nat) -> bool, publishes: (nat, nat) -> bool)

  /** Non-positive concurrency becomes one worker. */
  function NewConfig(concurrency: int, maxDeliveries: nat, hasDlq: bool): (c: Config)
    ensures c.workers >= 1
  {
    Config(if concurrency <= 0 then 1 else concurrency, maxDeliveries, hasDlq)
  }

  /** Two's-complement reading of a 64-bit result. */
  function Signed64(x: int): int {
    (x + TWO_63) % TWO_64 - TWO_63
  }

  /** The attempt number the worker sees; unreadable metadata reads as the first. */
  function Seen(e: Env, m: nat, k: nat): nat {
    if e.metadata(m, k) then k else 1
  }

  function Backoff(seen: nat): int {
    Signed64(2 * seen * NANOS)
  }

  predicate Fails(e: Env, m: nat, k: nat) {
    !e.decodes(m) || !e.handles(m, k)
  }

  predicate GivesUp(c: Config, e: Env, m: nat, k: nat) {
    Seen(e, m, k) >= c.maxDeliveries && c.hasDlq
  }

  /** The reaction to delivery k of message m. */
  function Decide(c: Config, e: Env, m: nat, k: nat): Action {
    if !Fails(e, m, k) then Ack(Handled)
    else if GivesUp(c, e, m, k) then Ack(if e.publishes(m, k) then DeadLettered else Lost)
    else Nak(Backoff(Seen(e, m, k)))
  }

  /** The body of the worker loop for one message, with its two separate failure paths. */
  method HandleMessage(c: Config, e: Env, m: nat, k: nat) returns (a: Action)
    ensures a == Decide(c, e, m, k)
    ensures a == Ack(Handled) <==> e.decodes(m) && e.handles(m, k)
    ensures !(e.decodes(m) && e.handles(m, k)) ==>
              var attempt := if e.metadata(m, k) then k else 1;
              if c.hasDlq && attempt >= c.maxDeliveries then
                a == Ack(if e.publishes(m, k) then DeadLettered else Lost)
              else
                a.Nak? && (attempt <= 4611686018 ==> a.delay == 2 * attempt * 1_000_000_000)
  {
    var unmarshalled := e.decodes(m);
    var numDelivered := 1;
    if e.metadata(m, k) {
      numDelivered := k;
    }
    if !unmarshalled {
      if numDelivered >= c.maxDeliveries && c.hasDlq {
        var published := e.publishes(m, k);
        return Ack(if published then DeadLettered else Lost);
      }
      return Nak(Backoff(numDelivered));
    }
    var processed := e.handles(m, k);
    if !processed {
      if numDelivered >= c.maxDeliveries && c.hasDlq {
        var published := e.publishes(m, k);
        return Ack(if published then DeadLettered else Lost);
      }
      return Nak(Backoff(numDelivered));
    }
    return Ack(Handled);
  }

  // ---------------------------------------------------------- one message's fate

  /** Message m is settled by delivery k with this ending, and by no earlier one. */
  ghost predicate Settles(c: Config, e: Env, m: nat, k: nat, ending: Ending) {
    && k >= 1
    && Decide(c, e, m, k) == Ack(ending)
    && forall j | 1 <= j < k :: Decide(c, e, m, j).Nak?
  }

  lemma SettlesUnique(c: Config, e: Env, m: nat, k: nat, a: Ending, l: nat, b: Ending)
    requires Settles(c, e, m, k, a) && Settles(c, e, m, l, b)
    ensures k == l && a == b
  {
  }

  /** The most deliveries a message can take. */
  function Limit(c: Config): (n: nat)
    ensures n >= 1
  {
    if c.maxDeliveries == 0 then 1 else c.maxDeliveries
  }

  /** With a dead-letter queue and readable metadata, delivery number max(1, maxDeliveries)
      settles at the latest. */
  lemma LimitSettles(c: Config, e: Env, m: nat, k: nat)
    requires c.hasDlq && (forall j: nat :: e.metadata(m, j)) && k >= Limit(c)
    ensures Decide(c, e, m, k).Ack?
  {
  }

  /** A message is lost exactly when its settling delivery failed and so did the publish;
      with publishes that succeed it ends handled or dead-lettered, never both. */
  lemma EndingExact(c: Config, e: Env, m: nat, k: nat, ending: Ending)
    requires Settles(c, e, m, k, ending)
    ensures ending == Handled <==> e.decodes(m) && e.handles(m, k)
    ensures ending == Lost <==> !(e.decodes(m) && e.handles(m, k)) && !e.publishes(m, k)
    ensures ending == DeadLettered <==> !(e.decodes(m) && e.handles(m, k)) && e.publishes(m, k)
    ensures ending != Handled ==> c.hasDlq && (if e.metadata(m, k) then k else 1) >= c.maxDeliveries
    ensures forall j: nat | 1 <= j < k ::
              && !(e.decodes(m) && e.handles(m, j))
              && !(c.hasDlq && (if e.metadata(m, j) then j else 1) >= c.maxDeliveries)
  {
    forall j: nat | 1 <= j < k
      ensures !(e.decodes(m) && e.handles(m, j))
      ensures !(c.hasDlq && (if e.metadata(m, j) then j else 1) >= c.maxDeliveries)
    {
      assert Decide(c, e, m, j).Nak?;
    }
  }

  /** A message that always fails is redelivered forever exactly when no delivery both has
      a dead-letter queue and shows an attempt number at the limit: so always without a
      queue, and with unreadable metadata as soon as the limit exceeds one. */
  lemma RedeliveredForever(c: Config, e: Env, m: nat)
    requires forall k: nat | k >= 1 :: Fails(e, m, k)
    ensures (forall k: nat | k >= 1 :: Decide(c, e, m, k).Nak?)
            <==> !c.hasDlq || forall k: nat | k >= 1 :: Seen(e, m, k) < c.maxDeliveries
    ensures c.maxDeliveries >= 2 && (forall k: nat :: !e.metadata(m, k)) ==>
              forall k: nat | k >= 1 :: Decide(c, e, m, k).Nak?
  {
    if c.hasDlq && exists k: nat :: k >= 1 && Seen(e, m, k) >= c.maxDeliveries {
      var k: nat :| k >= 1 && Seen(e, m, k) >= c.maxDeliveries;
      assert Decide(c, e, m, k).Ack?;
    } else {
      forall k: nat | k >= 1 ensures Decide(c, e, m, k).Nak? {
        assert Fails(e, m, k);
      }
    }
  }

  // ------------------------------------------------------------------ NAK delays

  /** All the delay message m has asked for before delivery k. */
  function DelayBefore(e: Env, m: nat, k: nat): int {
    if k <= 1 then 0 else DelayBefore(e, m, k - 1) + Backoff(Seen(e, m, k - 1))
  }

  const LAST_EXACT: nat := 4611686018

  /** The 64-bit product of attempt, 2 and a second is exact up to this attempt number and
      too small from there on. */
  lemma BackoffExact(n: nat)
    ensures n <= LAST_EXACT ==> Backoff(n) == 2 * n * NANOS
    ensures n > LAST_EXACT ==> Backoff(n) < 2 * n * NANOS
  {
  }

  /** k - 1 delays add up to k (k - 1) seconds, exactly as long as no product wrapped. */
  lemma {:induction false} TotalDelay(e: Env, m: nat, k: nat)
    requires k >= 1 && forall j: nat :: e.metadata(m, j)
    ensures DelayBefore(e, m, k) <= k * (k - 1) * NANOS
    ensures DelayBefore(e, m, k) == k * (k - 1) * NANOS <==> k <= LAST_EXACT + 1
  {
    if k > 1 {
      TotalDelay(e, m, k - 1);
      assert e.metadata(m, k - 1);
      BackoffExact(k - 1);
      assert k * (k - 1) == (k - 1) * (k - 2) + 2 * (k - 1);
    }
  }

  // ---------------------------------------------------------- the whole subscriber

  datatype Phase =
    | Queued(attempt: nat)
    | Buffered(attempt: nat)
    | Busy(attempt: nat)
    | Acked(attempt: nat, ending: Ending)

  /** buffer is the channel between the subscription callback and the workers; delays
      accumulates the NAK delay of each message. */
  datatype State = State(phases: seq<Phase>, buffer: seq<nat>, busy: nat, delays: seq<int>)

  /** Push: the callback puts a delivered message on the channel. Take: a worker receives.
      Finish: the worker holding m reacts. */
  datatype Step = Push(m: nat) | Take | Finish(m: nat)

  function Start(n: nat): State {
    State(seq(n, _ => Queued(1)), [], 0, seq(n, _ => 0))
  }

  predicate Enabled(c: Config, s: State, t: Step) {
    match t
    case Push(m) => m < |s.phases| && s.phases[m].Queued? && |s.buffer| < 2 * c.workers
    case Take => s.buffer != [] && s.buffer[0] < |s.phases| && s.busy < c.workers
    case Finish(m) => m < |s.phases| == |s.delays| && s.phases[m].Busy? && s.busy > 0
  }

  function Next(c: Config, e: Env, s: State, t: Step): State
    requires Enabled(c, s, t)
  {
    match t
    case Push(m) =>
      s.(phases := s.phases[m := Buffered(s.phases[m].attempt)], buffer := s.buffer + [m])
    case Take =>
      var m := s.buffer[0];
      s.(phases := s.phases[m := Busy(s.phases[m].attempt)], buffer := s.buffer[1..], busy := s.busy + 1)
    case Finish(m) =>
      var k := s.phases[m].attempt;
      (match Decide(c, e, m, k)
       case Ack(ending) => s.(phases := s.phases[m := Acked(k, ending)], busy := s.busy - 1)
       case Nak(d) =>
         s.(phases := s.phases[m := Queued(k + 1)], busy := s.busy - 1, delays := s.delays[m := s.delays[m] + d]))
  }

  function BusyOnes(phases: seq<Phase>): set<nat> {
    set m: nat | m < |phases| && phases[m].Busy?
  }

  /** Message m's story so far: every delivery before the current one was refused, the
      delays are accounted for, and an ack is the one Decide asks for. */
  ghost predicate Story(c: Config, e: Env, m: nat, p: Phase, delay: int) {
    && p.attempt >= 1
    && (forall j | 1 <= j < p.attempt :: Decide(c, e, m, j).Nak?)
    && delay == DelayBefore(e, m, p.attempt)
    && (p.Acked? ==> Decide(c, e, m, p.attempt) == Ack(p.ending))
  }

  /** Holds in every reachable state. */
  ghost predicate Inv(c: Config, e: Env, s: State) {
    && |s.phases| == |s.delays|
    && s.busy == |BusyOnes(s.phases)| <= c.workers
    && |s.buffer| <= 2 * c.workers
    && Distinct(s.buffer)
    && (forall m: nat :: m in s.buffer <==> m < |s.phases| && s.phases[m].Buffered?)
    && (forall m: nat | m < |s.phases| :: Story(c, e, m, s.phases[m], s.delays[m]))
  }

  lemma StartInv(c: Config, e: Env, n: nat)
    ensures Inv(c, e, Start(n))
  {
  }

  lemma BusyUpdate(phases: seq<Phase>, m: nat, p: Phase)
    requires m < |phases|
    ensures |BusyOnes(phases[m := p])| ==
            |BusyOnes(phases)| - (if phases[m].Busy? then 1 else 0) + (if p.Busy? then 1 else 0)
  {
    assert BusyOnes(phases) - {m} == BusyOnes(phases[m := p]) - {m};
    SizeUpdate(BusyOnes(phases), BusyOnes(phases[m := p]), m);
  }

  lemma PushKeepsInv(c: Config, e: Env, s: State, m: nat)
    requires Inv(c, e, s) && Enabled(c, s, Push(m))
    ensures Inv(c, e, Next(c, e, s, Push(m)))
  {
    var t := Next(c, e, s, Push(m));
    BusyUpdate(s.phases, m, t.phases[m]);
    assert m !in s.buffer;
    assert Story(c, e, m, s.phases[m], s.delays[m]);
    forall i: nat ensures i in t.buffer <==> i < |t.phases| && t.phases[i].Buffered? {
      assert i in t.buffer <==> i in s.buffer || i == m;
    }
    forall i: nat | i < |t.phases| ensures Story(c, e, i, t.phases[i], t.delays[i]) {
      assert Story(c, e, i, s.phases[i], s.delays[i]);
    }
  }

  lemma TakeKeepsInv(c: Config, e: Env, s: State)
    requires Inv(c, e, s) && Enabled(c, s, Take)
    ensures Inv(c, e, Next(c, e, s, Take))
  {
    var m, t := s.buffer[0], Next(c, e, s, Take);
    assert m in s.buffer;
    BusyUpdate(s.phases, m, t.phases[m]);
    assert s.buffer == [m] + t.buffer;
    forall i: nat ensures i in t.buffer <==> i < |t.phases| && t.phases[i].Buffered? {
      assert i in s.buffer <==> i in t.buffer || i == m;
    }
    forall i: nat | i < |t.phases| ensures Story(c, e, i, t.phases[i], t.delays[i]) {
      assert Story(c, e, i, s.phases[i], s.delays[i]);
    }
  }

  lemma FinishKeepsInv(c: Config, e: Env, s: State, m: nat)
    requires Inv(c, e, s) && Enabled(c, s, Finish(m))
    ensures Inv(c, e, Next(c, e, s, Finish(m)))
  {
    var t := Next(c, e, s, Finish(m));
    BusyUpdate(s.phases, m, t.phases[m]);
    assert Story(c, e, m, s.phases[m], s.delays[m]);
    forall i: nat ensures i in t.buffer <==> i < |t.phases| && t.phases[i].Buffered? {
      assert i in s.buffer <==> i < |s.phases| && s.phases[i].Buffered?;
    }
    forall i: nat | i < |t.phases| ensures Story(c, e, i, t.phases[i], t.delays[i]) {
      assert Story(c, e, i, s.phases[i], s.delays[i]);
    }
  }

  lemma StepKeepsInv(c: Config, e: Env, s: State, t: Step)
    requires Inv(c, e, s) && Enabled(c, s, t)
    ensures Inv(c, e, Next(c, e, s, t))
  {
    match t
    case Push(m) => PushKeepsInv(c, e, s, m);
    case Take => TakeKeepsInv(c, e, s);
    case Finish(m) => FinishKeepsInv(c, e, s, m);
  }

  ghost predicate AllAcked(s: State) {
    forall m | 0 <= m < |s.phases| :: s.phases[m].Acked?
  }

  /** Until every message is acked some step can happen: the channel and the pool never
      wedge each other. */
  lemma SomeStepEnabled(c: Config, e: Env, s: State) returns (t: Step)
    requires c.workers >= 1 && Inv(c, e, s) && !AllAcked(s)
    ensures Enabled(c, s, t)
  {
    if m: nat :| m in BusyOnes(s.phases) {
      t := Finish(m);
    } else if s.buffer != [] {
      assert BusyOnes(s.phases) == {};
      assert s.buffer[0] in s.buffer;
      t := Take;
    } else {
      var m: nat :| m < |s.phases| && !s.phases[m].Acked?;
      assert m !in s.buffer && m !in BusyOnes(s.phases);
      t := Push(m);
    }
  }

  /** Steps message m can still take before it must be acked. */
  function Left(limit: nat, p: Phase): nat {
    var more := if p.attempt <= limit then 3 * (limit - p.attempt) else 0;
    match p
    case Queued(_) => more + 3
    case Buffered(_) => more + 2
    case Busy(_) => more + 1
    case Acked(_, _) => 0
  }

  function TotalLeft(limit: nat, phases: seq<Phase>): nat {
    if phases == [] then 0
    else TotalLeft(limit, phases[..|phases| - 1]) + Left(limit, phases[|phases| - 1])
  }

  lemma {:induction false} TotalLeftUpdate(limit: nat, phases: seq<Phase>, m: nat, p: Phase)
    requires m < |phases|
    ensures TotalLeft(limit, phases[m := p]) == TotalLeft(limit, phases) - Left(limit, phases[m]) + Left(limit, p)
  {
    var n := |phases| - 1;
    if m < n {
      TotalLeftUpdate(limit, phases[..n], m, p);
      assert phases[m := p][..n] == phases[..n][m := p];
    } else {
      assert phases[m := p][..n] == phases[..n];
    }
  }

  /** Dead-letter queue present, metadata readable. */
  ghost predicate Bounded(c: Config, e: Env) {
    c.hasDlq && forall m: nat, k: nat :: e.metadata(m, k)
  }

  /** No message is ever delivered more than max(1, maxDeliveries) times. */
  lemma AttemptsBounded(c: Config, e: Env, s: State, m: nat)
    requires Bounded(c, e) && Inv(c, e, s) && m < |s.phases|
    ensures s.phases[m].attempt <= Limit(c)
  {
    assert Story(c, e, m, s.phases[m], s.delays[m]);
    if s.phases[m].attempt > Limit(c) {
      LimitSettles(c, e, m, Limit(c));
    }
  }

  /** The message a step moves. */
  function Mover(s: State, t: Step): nat
    requires t.Take? ==> s.buffer != []
  {
    match t
    case Push(m) => m
    case Take => s.buffer[0]
    case Finish(m) => m
  }

  /** Where a message can go next. */
  ghost predicate Follows(p: Phase, q: Phase) {
    match p
    case Queued(k) => q == Buffered(k)
    case Buffered(k) => q == Busy(k)
    case Busy(k) => q.Acked? || q == Queued(k + 1)
    case Acked(_, _) => false
  }

  /** A step moves one message one place on. */
  lemma StepMovesOne(c: Config, e: Env, s: State, t: Step)
    requires Inv(c, e, s) && Enabled(c, s, t)
    ensures var m, u := Mover(s, t), Next(c, e, s, t);
            m < |s.phases| && |u.phases| == |s.phases| && u.phases == s.phases[m := u.phases[m]]
            && Follows(s.phases[m], u.phases[m])
  {
    if t.Take? {
      assert s.buffer[0] in s.buffer;
    }
  }

  lemma StepDecreases(c: Config, e: Env, s: State, t: Step)
    requires Bounded(c, e) && Inv(c, e, s) && Enabled(c, s, t)
    ensures TotalLeft(Limit(c), Next(c, e, s, t).phases) < TotalLeft(Limit(c), s.phases)
  {
    var m, u := Mover(s, t), Next(c, e, s, t);
    StepMovesOne(c, e, s, t);
    StepKeepsInv(c, e, s, t);
    AttemptsBounded(c, e, u, m);
    TotalLeftUpdate(Limit(c), s.phases, m, u.phases[m]);
  }

  /** The state a list of steps leads to, if each was possible. */
  ghost function Play(c: Config, e: Env, s: State, steps: seq<Step>): Option<State>
    decreases |steps|
  {
    if steps == [] then Some(s)
    else if Enabled(c, s, steps[0]) then Play(c, e, Next(c, e, s, steps[0]), steps[1..])
    else None
  }

  /** Every reachable state satisfies the invariant, and every step uses up some of the work. */
  lemma {:induction false} EveryScheduleSafe(c: Config, e: Env, s: State, steps: seq<Step>)
    requires Inv(c, e, s) && Play(c, e, s, steps).Some?
    ensures Inv(c, e, Play(c, e, s, steps).value)
    ensures |Play(c, e, s, steps).value.phases| == |s.phases|
    ensures Bounded(c, e) ==>
              |steps| + TotalLeft(Limit(c), Play(c, e, s, steps).value.phases) <= TotalLeft(Limit(c), s.phases)
    decreases |steps|
  {
    if steps != [] {
      StepKeepsInv(c, e, s, steps[0]);
      StepMovesOne(c, e, s, steps[0]);
      if Bounded(c, e) {
        StepDecreases(c, e, s, steps[0]);
      }
      EveryScheduleSafe(c, e, Next(c, e, s, steps[0]), steps[1..]);
    }
  }

  lemma {:induction false} StartWork(limit: nat, n: nat)
    requires limit >= 1
    ensures TotalLeft(limit, Start(n).phases) == 3 * limit * n
  {
    if n > 0 {
      StartWork(limit, n - 1);
      assert Start(n).phases[..n - 1] == Start(n - 1).phases;
      assert 3 * limit * n == 3 * limit * (n - 1) + 3 * limit;
    }
  }

  /** No schedule of n messages is longer than 3 n max(1, maxDeliveries) steps. */
  lemma ScheduleLength(c: Config, e: Env, n: nat, steps: seq<Step>)
    requires Bounded(c, e) && Play(c, e, Start(n), steps).Some?
    ensures |steps| <= 3 * Limit(c) * n
  {
    StartInv(c, e, n);
    StartWork(Limit(c), n);
    EveryScheduleSafe(c, e, Start(n), steps);
  }

  /** Once all is acked, how each message ended, after how many deliveries and after how
      much delay is the same in every schedule. */
  lemma FateIndependentOfSchedule(c: Config, e: Env, n: nat, p: seq<Step>, q: seq<Step>)
    requires Play(c, e, Start(n), p).Some? && AllAcked(Play(c, e, Start(n), p).value)
    requires Play(c, e, Start(n), q).Some? && AllAcked(Play(c, e, Start(n), q).value)
    ensures Play(c, e, Start(n), p).value.phases == Play(c, e, Start(n), q).value.phases
    ensures Play(c, e, Start(n), p).value.delays == Play(c, e, Start(n), q).value.delays
  {
    StartInv(c, e, n);
    EveryScheduleSafe(c, e, Start(n), p);
    EveryScheduleSafe(c, e, Start(n), q);
    var s, t := Play(c, e, Start(n), p).value, Play(c, e, Start(n), q).value;
    forall m: nat | m < |s.phases| ensures s.phases[m] == t.phases[m] && s.delays[m] == t.delays[m] {
      assert Story(c, e, m, s.phases[m], s.delays[m]) && Story(c, e, m, t.phases[m], t.delays[m]);
      SettlesUnique(c, e, m, s.phases[m].attempt, s.phases[m].ending, t.phases[m].attempt, t.phases[m].ending);
    }
  }

  /** After a first delivery that is refused, the second settles the message as handled
      exactly when it succeeds. */
  lemma SecondHandled(c: Config, e: Env, m: nat)
    requires Fails(e, m, 1) && !GivesUp(c, e, m, 1)
    ensures Settles(c, e, m, 2, Handled) <==> e.decodes(m) && e.handles(m, 2)
  {
  }

  /** A message that fails up to the limit is settled there, after limit (limit - 1) seconds
      of delay (short of 64-bit overflow), and dead-lettered if the last publish succeeds. */
  lemma AlwaysFailing(c: Config, e: Env, m: nat)
    requires Bounded(c, e) && forall j: nat | 1 <= j <= Limit(c) :: Fails(e, m, j)
    ensures var k := Limit(c);
            && Settles(c, e, m, k, if e.publishes(m, k) then DeadLettered else Lost)
            && (DelayBefore(e, m, k) == k * (k - 1) * NANOS <==> k <= LAST_EXACT + 1)
  {
    var k := Limit(c);
    forall j: nat | 1 <= j <= k ensures Fails(e, m, j) && Seen(e, m, j) == j {
      assert e.metadata(m, j);
    }
    TotalDelay(e, m, k);
  }

  /** The subscriber at work on n messages, scheduling choices left open: with a dead-letter
      queue and readable metadata it always ends, with every message settled. */
  method Drain(c: Config, e: Env, n: nat) returns (s: State)
    requires c.workers >= 1 && Bounded(c, e)
    ensures |s.phases| == |s.delays| == n && AllAcked(s)
    ensures forall m: nat | m < n ::
              && Settles(c, e, m, s.phases[m].attempt, s.phases[m].ending)
              && s.phases[m].attempt <= Limit(c)
              && s.delays[m] == DelayBefore(e, m, s.phases[m].attempt)
  {
    s := Start(n);
    StartInv(c, e, n);
    while exists m: nat :: m < n && !s.phases[m].Acked?
      invariant |s.phases| == n && Inv(c, e, s)
      decreases TotalLeft(Limit(c), s.phases)
    {
      var t := Pick(c, e, s);
      StepKeepsInv(c, e, s, t);
      StepMovesOne(c, e, s, t);
      StepDecreases(c, e, s, t);
      s := Next(c, e, s, t);
    }
    forall m: nat | m < n ensures Settles(c, e, m, s.phases[m].attempt, s.phases[m].ending) {
      assert Story(c, e, m, s.phases[m], s.delays[m]);
    }
    forall m: nat | m < n ensures s.phases[m].attempt <= Limit(c) {
      AttemptsBounded(c, e, s, m);
    }
  }

  /** Any enabled step may be the next. */
  method Pick(c: Config, ghost e: Env, s: State) returns (t: Step)
    requires c.workers >= 1 && Inv(c, e, s) && !AllAcked(s)
    ensures Enabled(c, s, t)
  {
    ghost var possible := SomeStepEnabled(c, e, s);
    t :| Enabled(c, s, t);
  }
}
