/** The workers as the source writes them: loops and early returns over a shared cluster, where
between any two of a worker's calls everybody else may do anything. Each call is one event of the
step system, so a worker that skipped a call, or made it in the wrong place, would not verify. */
module Cluster {
  import opened PipelineState
  import opened PipelineGrowth
  import opened OutboxSafety
  import opened OutboxTheorems
  import opened PushSafety
  import opened PushSteps
  import opened Quiescence

  lemma {:induction false} RunsExtend(s: State, es: seq<Event>, e: Event)
    requires Runs(s, es) && Enabled(After(s, es), e)
    ensures Runs(s, es + [e]) && After(s, es + [e]) == Apply(After(s, es), e)
    decreases |es|
  {
    if es == [] {
      assert ([] + [e])[1..] == [];
    } else {
      assert (es + [e])[0] == es[0] && (es + [e])[1..] == es[1..] + [e];
      RunsExtend(Apply(s, es[0]), es[1..], e);
    }
  }

  /** The calls outbox worker `w` made, in order. */
  function CallsOf(es: seq<Event>, w: nat): seq<PublisherEvent> {
    if es == [] then []
    else
      var n := |es| - 1;
      CallsOf(es[..n], w) + if es[n].OnPublisher? && es[n].w == w then [es[n].pe] else []
  }

  lemma CallsOfExtend(es: seq<Event>, e: Event, w: nat)
    ensures CallsOf(es + [e], w) == CallsOf(es, w) + if e.OnPublisher? && e.w == w then [e.pe] else []
  {
    assert (es + [e])[..|es|] == es;
  }

  /** The calls push worker `c` made, in order. */
  function CallsBy(es: seq<Event>, c: nat): seq<ConsumerEvent> {
    if es == [] then []
    else
      var n := |es| - 1;
      CallsBy(es[..n], c) + if es[n].OnConsumer? && es[n].c == c then [es[n].ce] else []
  }

  lemma CallsByExtend(es: seq<Event>, e: Event, c: nat)
    ensures CallsBy(es + [e], c) == CallsBy(es, c) + if e.OnConsumer? && e.c == c then [e.ce] else []
  {
    assert (es + [e])[..|es|] == es;
  }

  /** MySQL, Kafka, Redis, the gateways and all workers. `history` is every event so far. */
  class SharedCluster {
    const cfg: Config
    var st: State
    ghost var history: seq<Event>

    ghost predicate Valid()
      reads this
    {
      Runs(Initial(cfg), history) && st == After(Initial(cfg), history)
    }

    constructor (cfg: Config)
      ensures Valid() && this.cfg == cfg && history == []
    {
      this.cfg := cfg;
      st := Initial(cfg);
      history := [];
    }

    lemma Reached()
      requires Valid()
      ensures OutboxInv(st) && PushInvariant(st) && st.cfg == cfg
    {
      InitialOutboxInv(cfg);
      InitialPushInv(cfg);
      RunKeepsOutboxInv(Initial(cfg), history);
      RunKeepsPushInv(Initial(cfg), history);
      RunKeepsConfig(Initial(cfg), history);
    }

    lemma Configured()
      requires Valid()
      ensures st.cfg == cfg
    {
      RunKeepsConfig(Initial(cfg), history);
    }

    lemma LogsGrowBy(e: Event)
      requires Valid() && Enabled(st, e)
      ensures LogsGrow(st.kafka, Apply(st, e).kafka)
    {
      Reached();
      EveryEventGrows(st, e);
    }

    method Perform(e: Event)
      requires Valid() && Enabled(st, e)
      modifies this
      ensures Valid() && st == Apply(old(st), e) && history == old(history) + [e]
    {
      RunsExtend(Initial(cfg), history, e);
      st := Apply(st, e);
      history := history + [e];
    }

    /** Everybody but outbox worker `w` takes any number of steps. */
    method OthersThanPublisher(w: nat)
      requires Valid()
      modifies this
      ensures Valid() && PublisherOf(st, w) == old(PublisherOf(st, w))
      ensures old(history) <= history && CallsOf(history, w) == CallsOf(old(history), w)
    {
      var steps: int := *;
      while steps > 0
        invariant Valid() && PublisherOf(st, w) == old(PublisherOf(st, w))
        invariant old(history) <= history && CallsOf(history, w) == CallsOf(old(history), w)
      {
        var e: Event := *;
        if !(e.OnPublisher? && e.w == w) && Enabled(st, e) {
          CallsOfExtend(history, e, w);
          OtherPublisherKept(st, e, w);
          Perform(e);
        }
        steps := steps - 1;
      }
    }

    /** Everybody but push worker `c` takes any number of steps. */
    method OthersThanConsumer(c: nat)
      requires Valid()
      modifies this
      ensures Valid() && ConsumerOf(st, c) == old(ConsumerOf(st, c))
      ensures LogsGrow(old(st.kafka), st.kafka) && CallsBy(history, c) == CallsBy(old(history), c)
    {
      var steps: int := *;
      while steps > 0
        invariant Valid() && ConsumerOf(st, c) == old(ConsumerOf(st, c))
        invariant LogsGrow(old(st.kafka), st.kafka) && CallsBy(history, c) == CallsBy(old(history), c)
      {
        var e: Event := *;
        if !(e.OnConsumer? && e.c == c) && Enabled(st, e) {
          CallsByExtend(history, e, c);
          OtherConsumerKept(st, e, c);
          LogsGrowBy(e);
          Perform(e);
        }
        steps := steps - 1;
      }
    }
  }

  lemma OtherPublisherKept(s: State, e: Event, w: nat)
    requires Enabled(s, e) && !(e.OnPublisher? && e.w == w)
    ensures PublisherOf(Apply(s, e), w) == PublisherOf(s, w)
  {
  }

  lemma OtherConsumerKept(s: State, e: Event, c: nat)
    requires Enabled(s, e) && !(e.OnConsumer? && e.c == c)
    ensures ConsumerOf(Apply(s, e), c) == ConsumerOf(s, c)
  {
    match e {
      case OnConsumer(b, k) => ConsumerFrame(s, b, k);
      case _ => OtherEventFrame(s, e);
    }
  }

  // ---------------------------------------------------------------- OutboxWorker

  /** The calls made for one claimed event whose row had the given retry_count. */
  datatype Pass = Pass(retryCount: nat, calls: seq<PublisherEvent>)

  /** What follows a publish: marked published; or marked for retry; or, with the retries used up,
  dead-lettered and marked dead, or else kept with its count unchanged. */
  predicate IsRest(rest: seq<PublisherEvent>, event: nat, ok: bool, retryCount: nat, maxRetry: nat) {
    if ok then |rest| == 1 && rest[0].MarkPublished? && rest[0].eventId == event
    else if retryCount + 1 <= maxRetry then |rest| == 1 && rest[0].MarkFailed? && rest[0].eventId == event &&
         rest[0].counted
    else
      && |rest| == 2 && rest[0].PublishDlq?
      && if rest[0].ok then rest[1].MarkDead? && rest[1].eventId == event
         else rest[1].MarkFailed? && rest[1].eventId == event && !rest[1].counted
  }

  predicate IsPass(p: Pass, maxRetry: nat) {
    && |p.calls| >= 2 && p.calls[0].Claim? && p.calls[1].Publish?
    && IsRest(p.calls[2..], p.calls[0].eventId, p.calls[1].ok, p.retryCount, maxRetry)
  }

  predicate AllPasses(passes: seq<Pass>, maxRetry: nat) {
    passes == [] || (AllPasses(passes[..|passes| - 1], maxRetry) && IsPass(passes[|passes| - 1], maxRetry))
  }

  lemma OneMorePass(passes: seq<Pass>, p: Pass, maxRetry: nat)
    requires AllPasses(passes, maxRetry) && IsPass(p, maxRetry)
    ensures AllPasses(passes + [p], maxRetry) && AllCalls(passes + [p]) == AllCalls(passes) + p.calls
  {
    assert (passes + [p])[..|passes|] == passes;
  }

  lemma Associate<T>(a: seq<T>, b: seq<T>, c: seq<T>)
    ensures a + (b + c) == a + b + c
  {
  }

  function AllCalls(passes: seq<Pass>): seq<PublisherEvent> {
    if passes == [] then [] else AllCalls(passes[..|passes| - 1]) + passes[|passes| - 1].calls
  }

  /** One claiming call: when, which rows other transactions held, and whether it failed. */
  datatype Attempt = Attempt(now: int, locked: set<nat>, failed: bool)

  predicate NoneDue(db: Db, a: Attempt) {
    forall id :: id in db.outbox && id !in a.locked ==> !Claimable(db.outbox[id], a.now)
  }

  lemma {:induction false} Above(used: set<nat>) returns (bound: nat)
    ensures forall t :: t in used ==> t < bound
    decreases |used|
  {
    if used == {} { return 0; }
    var t :| t in used;
    var rest := Above(used - {t});
    bound := if rest <= t then t + 1 else rest;
    forall x | x in used ensures x < bound {
      if x != t { assert x in used - {t}; }
    }
  }

  lemma FreshToken(used: set<nat>)
    ensures exists t: nat :: t != 0 && t !in used
  {
    var bound := Above(used);
    assert bound + 1 != 0 && bound + 1 !in used;
  }

  class OutboxWorker {
    const cluster: SharedCluster
    const id: nat
    const batchSize: nat

    constructor (cluster: SharedCluster, id: nat, batchSize: nat)
      ensures this.cluster == cluster && this.id == id && this.batchSize == batchSize
    {
      this.cluster := cluster;
      this.id := id;
      this.batchSize := batchSize;
    }

    ghost function Made(): seq<PublisherEvent>
      reads cluster
    {
      CallsOf(cluster.history, id)
    }

    /** One of this worker's calls; afterwards everybody else may go on. */
    method Call(e: PublisherEvent)
      requires cluster.Valid() && PublisherEnabled(cluster.st, id, e)
      modifies cluster
      ensures cluster.Valid() && Made() == old(Made()) + [e]
      ensures PublisherOf(cluster.st, id) == old(PublisherApply(cluster.st, id, e).publishers[id])
    {
      CallsOfExtend(cluster.history, OnPublisher(id, e), id);
      cluster.Perform(OnPublisher(id, e));
      cluster.OthersThanPublisher(id);
    }

    /** UPDATE ... WHERE claim_token: whether the row changed is for the database to say. */
    method Mark(e: PublisherEvent) returns (done: PublisherEvent)
      requires cluster.Valid() && PublisherEnabled(cluster.st, id, e)
      requires (e.MarkPublished? || e.MarkDead? || e.MarkFailed?) && !e.applied
      modifies cluster
      ensures cluster.Valid() && Made() == old(Made()) + [done]
      ensures PublisherOf(cluster.st, id) == Idle && (done == e || done == e.(applied := true))
    {
      var applied: bool := *;
      done := e;
      if applied && Owned(cluster.st.db, e.eventId, PublisherOf(cluster.st, id).token) { done := e.(applied := true); }
      Call(done);
    }

    /** claimPendingEvents with limit one: some due row that no other transaction has locked, under a new
    token; or nothing, because there is none or because the call failed. */
    method TryClaim() returns (found: bool, claim: PublisherEvent, attempt: Attempt)
      requires cluster.Valid() && PublisherOf(cluster.st, id) == Idle
      ensures found ==> claim.Claim? && PublisherEnabled(cluster.st, id, claim) && claim.now == attempt.now
      ensures found <==> !attempt.failed && !NoneDue(cluster.st.db, attempt)
    {
      var now: int, leaseUntil: int, failed: bool, locked: set<nat> := *, *, *, *;
      attempt := Attempt(now, locked, failed);
      claim := WorkerCrash;
      if failed || NoneDue(cluster.st.db, attempt) { return false, claim, attempt; }
      var event: nat :| event in cluster.st.db.outbox && event !in locked &&
          Claimable(cluster.st.db.outbox[event], now);
      FreshToken(cluster.st.db.usedTokens);
      var token: nat :| token != 0 && token !in cluster.st.db.usedTokens;
      found, claim := true, Claim(event, token, now, leaseUntil);
    }

    /** Carries up to a batch of events through, one claim at a time. It stops short of a batch only if
    the last claim failed or found nothing due. */
    method RunOnce() returns (passes: seq<Pass>, last: Attempt)
      requires cluster.Valid() && PublisherOf(cluster.st, id) == Idle
      modifies cluster
      ensures cluster.Valid() && PublisherOf(cluster.st, id) == Idle
      ensures Made() == old(Made()) + AllCalls(passes)
      ensures |passes| <= batchSize && (|passes| < batchSize ==> last.failed || NoneDue(cluster.st.db, last))
      ensures AllPasses(passes, cluster.cfg.outboxMaxRetry)
    {
      passes, last := [], Attempt(0, {}, false);
      for processed := 0 to batchSize
        invariant cluster.Valid() && PublisherOf(cluster.st, id) == Idle && |passes| == processed
        invariant Made() == old(Made()) + AllCalls(passes) && AllPasses(passes, cluster.cfg.outboxMaxRetry)
      {
        var found, pass;
        found, pass, last := CarryOne();
        if !found { return; }
        OneMorePass(passes, pass, cluster.cfg.outboxMaxRetry);
        Associate(old(Made()), AllCalls(passes), pass.calls);
        passes := passes + [pass];
      }
    }

    /** One turn of the loop: claim an event and carry it through, or nothing. */
    method CarryOne() returns (found: bool, pass: Pass, attempt: Attempt)
      requires cluster.Valid() && PublisherOf(cluster.st, id) == Idle
      modifies cluster
      ensures cluster.Valid() && PublisherOf(cluster.st, id) == Idle
      ensures found ==> Made() == old(Made()) + pass.calls && IsPass(pass, cluster.cfg.outboxMaxRetry)
      ensures found ==> !attempt.failed
      ensures !found ==> Made() == old(Made()) && (attempt.failed || NoneDue(cluster.st.db, attempt))
    {
      cluster.OthersThanPublisher(id);
      var claim;
      found, claim, attempt := TryClaim();
      if found {
        pass := RunClaimed(claim);
      } else {
        pass := Pass(0, []);
      }
    }

    /** The loop body once an event is claimed: publish, then mark by the outcome. */
    method RunClaimed(claim: PublisherEvent) returns (pass: Pass)
      requires cluster.Valid() && claim.Claim? && PublisherEnabled(cluster.st, id, claim)
      modifies cluster
      ensures cluster.Valid() && PublisherOf(cluster.st, id) == Idle
      ensures Made() == old(Made()) + pass.calls
      ensures pass.retryCount == old(cluster.st.db.outbox[claim.eventId].retryCount)
      ensures IsPass(pass, cluster.cfg.outboxMaxRetry)
    {
      var row := cluster.st.db.outbox[claim.eventId];
      Call(claim);
      var ok: bool, index: nat := *, *;
      cluster.Configured();
      Call(Publish(ok, index));
      var rest := RunPublished(claim.eventId, ok, row.retryCount);
      pass := Pass(row.retryCount, [claim, Publish(ok, index)] + rest);
    }

    method RunPublished(event: nat, ok: bool, retryCount: nat) returns (rest: seq<PublisherEvent>)
      requires cluster.Valid()
      requires var p := PublisherOf(cluster.st, id);
               && !p.Idle? && p.eventId == event && p.row.retryCount == retryCount
               && (if ok then p.MarkingPublished?
                   else if retryCount + 1 > cluster.cfg.outboxMaxRetry then p.DeadLettering?
                   else p.MarkingFailed? && p.counted)
      modifies cluster
      ensures cluster.Valid() && PublisherOf(cluster.st, id) == Idle && Made() == old(Made()) + rest
      ensures IsRest(rest, event, ok, retryCount, cluster.cfg.outboxMaxRetry)
    {
      var nextRetryAt: int := *;
      if ok {
        var mark := Mark(MarkPublished(event, false));
        return [mark];
      }
      if retryCount + 1 > cluster.cfg.outboxMaxRetry {
        rest := RunExhausted(event, nextRetryAt);
        return;
      }
      var mark := Mark(MarkFailed(event, true, false, nextRetryAt));
      return [mark];
    }

    /** The retries are used up: the event dies only if the DLQ has taken it. */
    method RunExhausted(event: nat, nextRetryAt: int) returns (rest: seq<PublisherEvent>)
      requires cluster.Valid()
      requires var p := PublisherOf(cluster.st, id); p.DeadLettering? && p.eventId == event
      modifies cluster
      ensures cluster.Valid() && PublisherOf(cluster.st, id) == Idle && Made() == old(Made()) + rest
      ensures |rest| == 2 && rest[0].PublishDlq?
      ensures if rest[0].ok then rest[1].MarkDead? && rest[1].eventId == event
              else rest[1].MarkFailed? && rest[1].eventId == event && !rest[1].counted
    {
      cluster.Configured();
      var ok: bool, index: nat := *, *;
      ok := ok && cluster.cfg.outboxHasDlq;
      Call(PublishDlq(ok, index));
      var mark: PublisherEvent;
      if ok {
        mark := Mark(MarkDead(event, false));
      } else {
        mark := Mark(MarkFailed(event, false, false, nextRetryAt));
      }
      rest := [PublishDlq(ok, index), mark];
    }
  }
}
