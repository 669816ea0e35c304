/** What the outbox invariant gives for whole runs of the pipeline. */
module OutboxTheorems {
  import opened PipelineState
  import opened PipelineGrowth
  import opened OutboxSafety

  // ---------------------------------------------------------------- runs

  lemma {:induction false} RunsPrefix(s: State, es: seq<Event>, n: nat)
    requires Runs(s, es) && n <= |es|
    ensures Runs(s, es[..n])
    ensures n < |es| ==> Enabled(After(s, es[..n]), es[n])
    ensures n < |es| ==> Runs(s, es[..n + 1]) && After(s, es[..n + 1]) == Apply(After(s, es[..n]), es[n])
    decreases |es|
  {
    if es != [] && n > 0 {
      RunsPrefix(Apply(s, es[0]), es[1..], n - 1);
      assert es[..n][1..] == es[1..][..n - 1] && es[..n][0] == es[0];
      if n < |es| { assert es[..n + 1][1..] == es[1..][..n] && es[..n + 1][0] == es[0]; }
    } else if es != [] {
      assert es[..1][1..] == [] && es[..0] == [];
    }
  }

  /** A run's last event, and the run up to it. */
  lemma LastStep(cfg: Config, es: seq<Event>) returns (front: seq<Event>, e: Event)
    requires Runs(Initial(cfg), es) && es != []
    ensures es == front + [e] && Runs(Initial(cfg), front) && Enabled(After(Initial(cfg), front), e)
    ensures After(Initial(cfg), es) == Apply(After(Initial(cfg), front), e)
  {
    var n := |es| - 1;
    RunsPrefix(Initial(cfg), es, n);
    front, e := es[..n], es[n];
    assert es[..n + 1] == es;
  }

  lemma InitialOutboxInv(cfg: Config)
    ensures OutboxInv(Initial(cfg))
  {
  }

  // ---------------------------------------------------------------- conservation

  /** Event `id` is still to be published, was published to its topic, or is in the DLQ. */
  ghost predicate Accounted(s: State, id: nat) {
    && id in s.db.outbox
    && var row := s.db.outbox[id];
    && (row.status == PUBLISHED ==> InLog(s.kafka, row.topic, row.payload))
    && (row.status == DEAD ==> InLog(s.kafka, Dlq, row.payload))
  }

  /** In every reachable state, each committed send and each committed recall has exactly its own
  event, accounted for; and every event belongs to a committed message. */
  lemma Conservation(cfg: Config, es: seq<Event>)
    requires Runs(Initial(cfg), es)
    ensures var s := After(Initial(cfg), es);
      && (forall m :: m in s.db.messages ==>
            && Accounted(s, m) && !s.db.outbox[m].isRecall
            && s.db.outbox[m].payload == Parsed(s.db.messages[m].data))
      && (forall m :: m in s.db.messages && s.db.messages[m].recallEvent.Some? ==>
            var id := s.db.messages[m].recallEvent.value;
            && Accounted(s, id) && s.db.outbox[id].isRecall
            && s.db.outbox[id].payload == Parsed(s.db.messages[m].data.(recalled := true)))
      && (forall id :: id in s.db.outbox ==>
            var row := s.db.outbox[id];
            && row.aggregateId in s.db.messages
            && (if row.isRecall then s.db.messages[row.aggregateId].recallEvent == Some(id) else id == row.aggregateId))
  {
    var s := After(Initial(cfg), es);
    InitialOutboxInv(cfg);
    RunKeepsOutboxInv(Initial(cfg), es);
    forall id | id in s.db.outbox ensures Accounted(s, id) {
      assert RowInv(s, id);
      var row := s.db.outbox[id];
      if row.status == PUBLISHED {
        WeakerSince(s.kafka, row.topic, row.payload, s.db.messages[row.aggregateId].since - 1, -1);
      }
    }
    forall m | m in s.db.messages ensures MessageInv(s.db, m) && m in s.db.outbox && RowInv(s, m) {
      assert MessageInv(s.db, m);
    }
    forall m | m in s.db.messages && s.db.messages[m].recallEvent.Some?
      ensures var id := s.db.messages[m].recallEvent.value; id in s.db.outbox && RowInv(s, id)
    {
      assert MessageInv(s.db, m);
    }
  }

  // ---------------------------------------------------------------- retry counting

  predicate CountsAgainst(e: Event, id: nat) {
    e.OnPublisher? && e.pe.MarkFailed? && e.pe.eventId == id && e.pe.counted && e.pe.applied
  }

  /** Accepted counted failures of event `id` in a run. */
  function Failures(es: seq<Event>, id: nat): nat {
    if es == [] then 0 else (if CountsAgainst(es[0], id) then 1 else 0) + Failures(es[1..], id)
  }

  function RetryCount(s: State, id: nat): nat {
    if id in s.db.outbox then s.db.outbox[id].retryCount else 0
  }

  lemma OneMarkCounts(s: State, w: nat, e: PublisherEvent)
    requires OutboxInv(s) && PublisherEnabled(s, w, e) && e.MarkFailed? && e.applied
    ensures RetryCount(PublisherApply(s, w, e), e.eventId) == RetryCount(s, e.eventId) + (if e.counted then 1 else 0)
  {
    var p := PublisherOf(s, w);
    assert w in s.publishers && PublisherInv(s, p);
    assert SnapshotInv(s, p.eventId, p.row, p.token);
  }

  lemma PublisherCounts(s: State, w: nat, e: PublisherEvent, id: nat)
    requires OutboxInv(s) && PublisherEnabled(s, w, e)
    ensures RetryCount(PublisherApply(s, w, e), id) == RetryCount(s, id)
            + (if CountsAgainst(OnPublisher(w, e), id) then 1 else 0)
  {
    PublisherFrame(s, w, e);
    if Touches(e, id) && e.MarkFailed? { OneMarkCounts(s, w, e); }
  }

  lemma OneEventCounts(s: State, e: Event, id: nat)
    requires OutboxInv(s) && Enabled(s, e)
    ensures RetryCount(Apply(s, e), id) == RetryCount(s, id) + (if CountsAgainst(e, id) then 1 else 0)
  {
    match e {
      case OnPublisher(w, p) => PublisherCounts(s, w, p, id);
      case OnDb(d) => DbCounts(s.db, s.kafka.stamp, d, id);
      case _ => assert Apply(s, e).db == s.db;
    }
  }

  lemma DbCounts(db: Db, stamp: nat, e: DbEvent, id: nat)
    requires DbEnabled(db, e)
    ensures id in db.outbox ==> id in DbApply(db, stamp, e).outbox && DbApply(db, stamp, e).outbox[id] == db.outbox[id]
    ensures id !in db.outbox && id in DbApply(db, stamp, e).outbox ==> DbApply(db, stamp, e).outbox[id].retryCount == 0
  {
  }

  lemma {:induction false} RunCounts(s: State, es: seq<Event>, id: nat)
    requires OutboxInv(s) && Runs(s, es)
    ensures RetryCount(After(s, es), id) == RetryCount(s, id) + Failures(es, id)
    decreases |es|
  {
    if es != [] {
      OneEventCounts(s, es[0], id);
      EventKeepsOutboxInv(s, es[0]);
      RunCounts(Apply(s, es[0]), es[1..], id);
    }
  }

  /** retry_count is the number of accepted counted failures, never exceeds the limit, and DEAD
  is reached only at the limit and with the payload in the DLQ. */
  lemma RetryCountIsFailures(cfg: Config, es: seq<Event>, id: nat)
    requires Runs(Initial(cfg), es)
    ensures var s := After(Initial(cfg), es);
            id in s.db.outbox ==>
              var row := s.db.outbox[id];
              && row.retryCount == Failures(es, id) <= cfg.outboxMaxRetry
              && (row.token != 0 <==> row.status == PUBLISHING)
              && (row.status == DEAD ==> row.retryCount == cfg.outboxMaxRetry && InLog(s.kafka, Dlq, row.payload))
  {
    InitialOutboxInv(cfg);
    RunCounts(Initial(cfg), es, id);
    RunKeepsOutboxInv(Initial(cfg), es);
    var s := After(Initial(cfg), es);
    RunKeepsConfig(Initial(cfg), es);
    if id in s.db.outbox { assert RowInv(s, id); }
  }

  lemma {:induction false} RunKeepsConfig(s: State, es: seq<Event>)
    requires Runs(s, es)
    ensures After(s, es).cfg == s.cfg
    decreases |es|
  {
    if es != [] { RunKeepsConfig(Apply(s, es[0]), es[1..]); }
  }

  // ---------------------------------------------------------------- exclusive claims

  predicate IsClaim(e: Event, id: nat) {
    e.OnPublisher? && e.pe.Claim? && e.pe.eventId == id
  }

  predicate IsClaimBy(e: Event, w: nat, id: nat, token: nat) {
    IsClaim(e, id) && e.w == w && e.pe.token == token
  }

  ghost predicate NoClaimAfter(es: seq<Event>, i: nat, id: nat) {
    forall k :: i < k < |es| ==> !IsClaim(es[k], id)
  }

  /** The worker's token comes from its claim `i`, which is the latest claim of the event if the
  worker still owns it. */
  ghost predicate ClaimedAt(s: State, es: seq<Event>, w: nat, i: nat) {
    var p := PublisherOf(s, w);
    && !p.Idle? && i < |es| && IsClaimBy(es[i], w, p.eventId, p.token)
    && (Owned(s.db, p.eventId, p.token) ==> NoClaimAfter(es, i, p.eventId))
  }

  lemma {:induction false} ClaimOfWorker(cfg: Config, es: seq<Event>, w: nat) returns (i: nat)
    requires Runs(Initial(cfg), es) && !PublisherOf(After(Initial(cfg), es), w).Idle?
    ensures ClaimedAt(After(Initial(cfg), es), es, w, i)
    decreases |es|
  {
    assert es != [];
    var front, e := LastStep(cfg, es);
    var s := After(Initial(cfg), front);
    if e.OnPublisher? && e.w == w && e.pe.Claim? {
      i := |front|;
    } else {
      TokenKept(s, e, w);
      i := ClaimOfWorker(cfg, front, w);
      InitialOutboxInv(cfg);
      RunKeepsOutboxInv(Initial(cfg), front);
      ClaimSurvives(s, front, e, w, i);
    }
  }

  /** A worker keeps its event and token until it goes idle. */
  lemma TokenKept(s: State, e: Event, w: nat)
    requires Enabled(s, e) && !(e.OnPublisher? && e.w == w && e.pe.Claim?)
    requires !PublisherOf(Apply(s, e), w).Idle?
    ensures var p, p' := PublisherOf(s, w), PublisherOf(Apply(s, e), w);
            !p.Idle? && p'.eventId == p.eventId && p'.token == p.token
  {
    if e.OnPublisher? && e.w == w {
      assert Apply(s, e) == PublisherApply(s, w, e.pe);
    }
  }

  lemma OwnedBefore(s: State, e: Event, id: nat, token: nat)
    requires Enabled(s, e) && token != 0 && token in s.db.usedTokens && id in s.db.outbox
    requires Owned(Apply(s, e).db, id, token)
    ensures Owned(s.db, id, token) && !IsClaim(e, id)
  {
    match e {
      case OnPublisher(w, p) => OwnershipShrinks(s, w, p, id, token);
      case OnDb(_) =>
      case _ => assert Apply(s, e).db == s.db;
    }
  }

  lemma ClaimSurvives(s: State, es: seq<Event>, e: Event, w: nat, i: nat)
    requires OutboxInv(s) && Enabled(s, e) && ClaimedAt(s, es, w, i)
    requires !(e.OnPublisher? && e.w == w && e.pe.Claim?) && !PublisherOf(Apply(s, e), w).Idle?
    ensures ClaimedAt(Apply(s, e), es + [e], w, i)
  {
    var p := PublisherOf(s, w);
    assert w in s.publishers && PublisherInv(s, p);
    assert (es + [e])[i] == es[i];
    TokenKept(s, e, w);
    if Owned(Apply(s, e).db, p.eventId, p.token) {
      OwnedBefore(s, e, p.eventId, p.token);
      assert forall k :: i < k < |es| ==> (es + [e])[k] == es[k];
    }
  }

  predicate AcceptedMark(e: Event, w: nat, id: nat) {
    && e.OnPublisher? && e.w == w
    && (e.pe.MarkPublished? || e.pe.MarkDead? || e.pe.MarkFailed?)
    && e.pe.eventId == id && e.pe.applied
  }

  /** A mark is accepted only from the worker that made the latest claim of that event. */
  lemma MarkOwnsLatestClaim(cfg: Config, es: seq<Event>, j: nat, w: nat, id: nat)
    requires Runs(Initial(cfg), es) && j < |es| && AcceptedMark(es[j], w, id)
    ensures exists i, token :: 0 <= i < j && IsClaimBy(es[i], w, id, token)
                               && forall k :: i < k < j ==> !IsClaim(es[k], id)
  {
    RunsPrefix(Initial(cfg), es, j);
    var s := After(Initial(cfg), es[..j]);
    var i := ClaimOfWorker(cfg, es[..j], w);
    assert IsClaimBy(es[i], w, id, PublisherOf(s, w).token);
    assert forall k :: i < k < j ==> es[..j][k] == es[k];
  }

  // ---------------------------------------------------------------- leases

  /** The event is claimed, and due again from `until` on. */
  predicate Leased(db: Db, id: nat, token: nat, until: int) {
    && id in db.outbox && db.outbox[id].status == PUBLISHING && db.outbox[id].token == token
    && db.outbox[id].nextRetryAt == until
  }

  /** Nobody's mark of the event is accepted, and nobody tries to claim it at `until` or later. */
  predicate LeavesAlone(e: Event, id: nat, until: int) {
    e.OnPublisher? ==> !AcceptedMark(e, e.w, id) && (IsClaim(e, id) ==> e.pe.now < until)
  }

  lemma EventKeepsLease(s: State, e: Event, id: nat, token: nat, until: int)
    requires Leased(s.db, id, token, until) && Enabled(s, e) && LeavesAlone(e, id, until)
    ensures Leased(Apply(s, e).db, id, token, until) && !IsClaim(e, id)
  {
    match e {
      case OnConsumer(c, k) => assert ConsumerApply(s, c, k).db == s.db;
      case _ =>
    }
  }

  lemma {:induction false} RunKeepsLease(s: State, es: seq<Event>, id: nat, token: nat, until: int)
    requires Leased(s.db, id, token, until) && Runs(s, es) && forall e :: e in es ==> LeavesAlone(e, id, until)
    ensures Leased(After(s, es).db, id, token, until) && forall e :: e in es ==> !IsClaim(e, id)
    decreases |es|
  {
    if es != [] {
      assert es[0] in es;
      EventKeepsLease(s, es[0], id, token, until);
      assert forall e :: e in es[1..] ==> e in es;
      RunKeepsLease(Apply(s, es[0]), es[1..], id, token, until);
    }
  }

  /** A lease is exclusive and ends: whatever happens after a claim, as long as no mark of the event is
  accepted, nobody claims it before `leaseUntil`, and from then on it can be claimed again. */
  lemma LeaseHolds(s: State, w: nat, claim: PublisherEvent, es: seq<Event>, t: int)
    requires claim.Claim? && PublisherEnabled(s, w, claim) && Runs(PublisherApply(s, w, claim), es)
    requires forall e :: e in es ==> LeavesAlone(e, claim.eventId, claim.leaseUntil)
    ensures forall e :: e in es ==> !IsClaim(e, claim.eventId)
    ensures var s' := After(PublisherApply(s, w, claim), es);
            && claim.eventId in s'.db.outbox
            && (Claimable(s'.db.outbox[claim.eventId], t) <==> t >= claim.leaseUntil)
  {
    RunKeepsLease(PublisherApply(s, w, claim), es, claim.eventId, claim.token, claim.leaseUntil);
  }

  /** No event is stranded: one that is neither published nor dead can be claimed by any idle worker, under
  any new token, exactly from its due time on; one that is, never. */
  lemma ClaimableIff(s: State, w: nat, claim: PublisherEvent)
    requires claim.Claim? && claim.eventId in s.db.outbox && PublisherOf(s, w).Idle?
    requires claim.token != 0 && claim.token !in s.db.usedTokens
    ensures var row := s.db.outbox[claim.eventId];
            PublisherEnabled(s, w, claim) <==>
              row.status != PUBLISHED && row.status != DEAD && claim.now >= row.nextRetryAt
  {
  }
}
