/** The transactional outbox under any number of workers, lease expiry, crashes and ambiguous
produce failures: nothing committed is lost, nothing is published that was not committed, and
claims are exclusive. */
module OutboxSafety {
  import opened PipelineState
  import opened PipelineGrowth

  // ---------------------------------------------------------------- the invariant

  /** A row belongs to its message, and its terminal statuses mean what they say. */
  ghost predicate RowInv(s: State, id: nat)
    requires id in s.db.outbox
  {
    var row := s.db.outbox[id];
    && row.aggregateId in s.db.messages
    && var m := s.db.messages[row.aggregateId];
    && row.topic == TopicFor(m.data)
    && (if row.isRecall then m.recallEvent == Some(id) && row.payload == Parsed(m.data.(recalled := true))
        else id == row.aggregateId && row.payload == Parsed(m.data))
    && (row.token != 0 <==> row.status == PUBLISHING)
    && (row.token != 0 ==> row.token in s.db.usedTokens)
    && row.retryCount <= s.cfg.outboxMaxRetry
    && (row.status == PUBLISHED ==> InLogAfter(s.kafka, row.topic, row.payload, m.since - 1))
    && (row.status == DEAD ==> InLog(s.kafka, Dlq, row.payload) && row.retryCount == s.cfg.outboxMaxRetry)
  }

  ghost predicate MessageInv(db: Db, m: nat)
    requires m in db.messages
  {
    && db.messages[m].data.messageId == m && Addressed(db.messages[m].data)
    && m in db.outbox && !db.outbox[m].isRecall && db.outbox[m].aggregateId == m
    && (db.messages[m].recallEvent.Some? ==>
          var id := db.messages[m].recallEvent.value;
          id in db.outbox && db.outbox[id].isRecall && db.outbox[id].aggregateId == m)
  }

  /** The worker's copy of the row is current while it still owns the claim. */
  ghost predicate SnapshotInv(s: State, id: nat, row: Row, token: nat) {
    && token != 0 && token in s.db.usedTokens
    && id in s.db.outbox
    && row.topic == s.db.outbox[id].topic && row.payload == s.db.outbox[id].payload
    && row.aggregateId == s.db.outbox[id].aggregateId
    && row.retryCount <= s.cfg.outboxMaxRetry
    && (Owned(s.db, id, token) ==> s.db.outbox[id].retryCount == row.retryCount)
  }

  ghost predicate PublisherInv(s: State, p: Publisher) {
    !p.Idle? ==>
      && SnapshotInv(s, p.eventId, p.row, p.token)
      && p.row.aggregateId in s.db.messages
      && (p.MarkingPublished? ==>
            InLogAfter(s.kafka, p.row.topic, p.row.payload, s.db.messages[p.row.aggregateId].since - 1))
      && (p.DeadLettering? || p.MarkingDead? ==> p.row.retryCount == s.cfg.outboxMaxRetry)
      && (p.MarkingDead? ==> InLog(s.kafka, Dlq, p.row.payload))
      && (p.MarkingFailed? && p.counted ==> p.row.retryCount < s.cfg.outboxMaxRetry)
  }

  ghost predicate RowsInv(s: State) { forall id :: id in s.db.outbox ==> RowInv(s, id) }
  ghost predicate MessagesInv(s: State) { forall m :: m in s.db.messages ==> MessageInv(s.db, m) }
  ghost predicate PublishersInv(s: State) { forall w :: w in s.publishers ==> PublisherInv(s, s.publishers[w]) }

  ghost predicate OutboxInv(s: State) {
    BaseInv(s) && RowsInv(s) && MessagesInv(s) && PublishersInv(s)
  }

  // ---------------------------------------------------------------- preservation

  /** Rows, messages and workers that an event leaves alone keep their invariants. */
  lemma UntouchedRow(s: State, s': State, id: nat)
    requires Grows(s, s') && id in s.db.outbox && RowInv(s, id)
    requires id in s'.db.outbox && s'.db.outbox[id] == s.db.outbox[id]
    requires s.db.usedTokens <= s'.db.usedTokens
    requires var a := s.db.outbox[id].aggregateId;
             s'.db.messages[a].recallEvent == s.db.messages[a].recallEvent || s.db.messages[a].recallEvent.None?
    ensures RowInv(s', id)
  {
    var row := s.db.outbox[id];
    var m := s.db.messages[row.aggregateId];
    if row.status == PUBLISHED { InLogStays(s.kafka, s'.kafka, row.topic, row.payload, m.since - 1); }
    if row.status == DEAD { InLogStays(s.kafka, s'.kafka, Dlq, row.payload, -1); }
  }

  lemma UntouchedPublisher(s: State, s': State, p: Publisher)
    requires Grows(s, s') && PublisherInv(s, p)
    requires s.db.usedTokens <= s'.db.usedTokens
    requires !p.Idle? ==>
               && p.eventId in s'.db.outbox
               && s'.db.outbox[p.eventId].topic == s.db.outbox[p.eventId].topic
               && s'.db.outbox[p.eventId].payload == s.db.outbox[p.eventId].payload
               && s'.db.outbox[p.eventId].aggregateId == s.db.outbox[p.eventId].aggregateId
               && (Owned(s'.db, p.eventId, p.token) ==>
                     s'.db.outbox[p.eventId].retryCount == s.db.outbox[p.eventId].retryCount &&
                         Owned(s.db, p.eventId, p.token))
    ensures PublisherInv(s', p)
  {
    if p.MarkingPublished? {
      InLogStays(s.kafka, s'.kafka, p.row.topic, p.row.payload, s.db.messages[p.row.aggregateId].since - 1);
    }
    if p.MarkingDead? { InLogStays(s.kafka, s'.kafka, Dlq, p.row.payload, -1); }
  }

  lemma OtherEventKeeps(s: State, e: Event)
    requires OutboxInv(s) && Enabled(s, e) && !e.OnDb? && !e.OnPublisher?
    ensures OutboxInv(Apply(s, e))
  {
    var s' := Apply(s, e);
    EveryEventGrows(s, e);
    assert s'.db == s.db && s'.publishers == s.publishers;
    forall id | id in s'.db.outbox ensures RowInv(s', id) { UntouchedRow(s, s', id); }
    forall w | w in s'.publishers ensures PublisherInv(s', s'.publishers[w]) {
      UntouchedPublisher(s, s', s.publishers[w]);
    }
  }

  lemma RowAfterDb(s: State, e: DbEvent, id: nat)
    requires OutboxInv(s) && DbEnabled(s.db, e) && id in Apply(s, OnDb(e)).db.outbox
    ensures RowInv(Apply(s, OnDb(e)), id)
  {
    DbGrows(s, e);
    if id in s.db.outbox {
      assert RowInv(s, id);
      UntouchedRow(s, Apply(s, OnDb(e)), id);
    }
  }

  lemma MessageAfterDb(s: State, e: DbEvent, m: nat)
    requires OutboxInv(s) && DbEnabled(s.db, e) && m in Apply(s, OnDb(e)).db.messages
    ensures MessageInv(Apply(s, OnDb(e)).db, m)
  {
    if m in s.db.messages { assert MessageInv(s.db, m); }
  }

  lemma DbEventKeeps(s: State, e: DbEvent)
    requires OutboxInv(s) && DbEnabled(s.db, e)
    ensures OutboxInv(Apply(s, OnDb(e)))
  {
    var s' := Apply(s, OnDb(e));
    DbGrows(s, e);
    forall id | id in s'.db.outbox ensures RowInv(s', id) { RowAfterDb(s, e, id); }
    forall m | m in s'.db.messages ensures MessageInv(s'.db, m) { MessageAfterDb(s, e, m); }
    forall w | w in s'.publishers ensures PublisherInv(s', s'.publishers[w]) {
      UntouchedPublisher(s, s', s.publishers[w]);
    }
  }

  lemma WeakerSince(k: Kafka, topic: Topic, payload: Payload, since: int, earlier: int)
    requires InLogAfter(k, topic, payload, since) && earlier <= since
    ensures InLogAfter(k, topic, payload, earlier)
  {
    var p, i :| p in k.logs && p.topic == topic && 0 <= i < |k.logs[p]|
                && k.logs[p][i].payload == payload && k.logs[p][i].stamp > since;
  }

  /** The phase a publish leads to is justified by what the call did. */
  lemma ActorAfterPublish(s: State, w: nat, e: PublisherEvent)
    requires SincePast(s) && StampsBelow(s.kafka) && PublisherInv(s, PublisherOf(s, w))
    requires PublisherEnabled(s, w, e) && e.Publish?
    ensures var s' := PublisherApply(s, w, e); PublisherInv(s', s'.publishers[w])
  {
    var p := PublisherOf(s, w);
    ProduceGrows(s.kafka, p.row.topic, e.index, p.row.payload, e.ok);
    if e.ok {
      var earlier := s.db.messages[p.row.aggregateId].since - 1;
      WeakerSince(PublisherApply(s, w, e).kafka, p.row.topic, p.row.payload, s.kafka.stamp - 1, earlier);
    }
  }

  lemma ActorAfterDlq(s: State, w: nat, e: PublisherEvent)
    requires StampsBelow(s.kafka) && PublisherInv(s, PublisherOf(s, w)) && PublisherEnabled(s, w, e) && e.PublishDlq?
    ensures var s' := PublisherApply(s, w, e); PublisherInv(s', s'.publishers[w])
  {
    var p := PublisherOf(s, w);
    ProduceGrows(s.kafka, Dlq, e.index, p.row.payload, e.ok);
    if e.ok { WeakerSince(PublisherApply(s, w, e).kafka, Dlq, p.row.payload, s.kafka.stamp - 1, -1); }
  }

  lemma ActorAfter(s: State, w: nat, e: PublisherEvent)
    requires OutboxInv(s) && PublisherEnabled(s, w, e)
    ensures var s' := PublisherApply(s, w, e); PublisherInv(s', s'.publishers[w])
  {
    if e.Publish? {
      assert PublisherInv(s, PublisherOf(s, w));
      ActorAfterPublish(s, w, e);
    } else if e.PublishDlq? {
      assert PublisherInv(s, PublisherOf(s, w));
      ActorAfterDlq(s, w, e);
    } else if e.Claim? {
      assert RowInv(s, e.eventId);
    }
  }

  /** An outbox worker changes at most one row, and never what the row is about. */
  lemma PublisherFrame(s: State, w: nat, e: PublisherEvent)
    requires PublisherEnabled(s, w, e)
    ensures var s' := PublisherApply(s, w, e);
            && s'.cfg == s.cfg && s'.db.messages == s.db.messages && s.db.usedTokens <= s'.db.usedTokens
            && s'.db.outbox.Keys == s.db.outbox.Keys
            && (forall id :: id in s.db.outbox ==>
                  && s'.db.outbox[id].isRecall == s.db.outbox[id].isRecall
                  && s'.db.outbox[id].aggregateId == s.db.outbox[id].aggregateId
                  && s'.db.outbox[id].topic == s.db.outbox[id].topic
                  && s'.db.outbox[id].payload == s.db.outbox[id].payload)
            && (forall id :: id in s.db.outbox && !Touches(e, id) ==> s'.db.outbox[id] == s.db.outbox[id])
  {
  }

  predicate Touches(e: PublisherEvent, id: nat) {
    || (e.Claim? && e.eventId == id)
    || ((e.MarkPublished? || e.MarkDead? || e.MarkFailed?) && e.eventId == id && e.applied)
  }

  /** A token handed out earlier can only lose its row. */
  lemma OwnershipShrinks(s: State, w: nat, e: PublisherEvent, id: nat, token: nat)
    requires PublisherEnabled(s, w, e) && token != 0 && token in s.db.usedTokens
    requires Owned(PublisherApply(s, w, e).db, id, token)
    ensures Owned(s.db, id, token) && PublisherApply(s, w, e).db.outbox[id] == s.db.outbox[id] && !Touches(e, id)
  {
  }

  /** A worker other than the acting one keeps a correct picture: if the acting worker took or
  released the row, the other one no longer owns it. */
  lemma BystanderAfter(s: State, w: nat, e: PublisherEvent, v: nat)
    requires OutboxInv(s) && PublisherEnabled(s, w, e) && v != w && v in s.publishers
    ensures PublisherInv(PublisherApply(s, w, e), s.publishers[v])
  {
    var p, s' := s.publishers[v], PublisherApply(s, w, e);
    PublisherGrows(s, w, e);
    PublisherFrame(s, w, e);
    assert PublisherInv(s, p);
    if !p.Idle? && Owned(s'.db, p.eventId, p.token) { OwnershipShrinks(s, w, e, p.eventId, p.token); }
    UntouchedPublisher(s, s', p);
  }

  lemma RowAfterMark(s: State, w: nat, e: PublisherEvent, id: nat)
    requires PublisherEnabled(s, w, e) && (e.MarkPublished? || e.MarkDead? || e.MarkFailed?)
    requires id == e.eventId && e.applied && RowInv(s, id) && PublisherInv(s, PublisherOf(s, w))
    ensures RowInv(PublisherApply(s, w, e), id)
  {
  }

  lemma RowAfterClaim(s: State, w: nat, e: PublisherEvent)
    requires OutboxInv(s) && PublisherEnabled(s, w, e) && e.Claim?
    ensures RowInv(PublisherApply(s, w, e), e.eventId)
  {
    assert RowInv(s, e.eventId);
  }

  lemma RowAfterPublisher(s: State, w: nat, e: PublisherEvent, id: nat)
    requires OutboxInv(s) && PublisherEnabled(s, w, e) && id in s.db.outbox
    ensures id in PublisherApply(s, w, e).db.outbox && RowInv(PublisherApply(s, w, e), id)
  {
    PublisherFrame(s, w, e);
    if !Touches(e, id) {
      PublisherGrows(s, w, e);
      assert RowInv(s, id);
      UntouchedRow(s, PublisherApply(s, w, e), id);
    } else if e.Claim? {
      RowAfterClaim(s, w, e);
    } else {
      assert w in s.publishers && PublisherInv(s, s.publishers[w]) && RowInv(s, id);
      RowAfterMark(s, w, e, id);
    }
  }

  lemma MessageAfterPublisher(s: State, w: nat, e: PublisherEvent, m: nat)
    requires OutboxInv(s) && PublisherEnabled(s, w, e) && m in s.db.messages
    ensures m in PublisherApply(s, w, e).db.messages && MessageInv(PublisherApply(s, w, e).db, m)
  {
    PublisherFrame(s, w, e);
    assert MessageInv(s.db, m);
  }

  lemma PublisherEventKeeps(s: State, w: nat, e: PublisherEvent)
    requires OutboxInv(s) && PublisherEnabled(s, w, e)
    ensures OutboxInv(PublisherApply(s, w, e))
  {
    var s' := PublisherApply(s, w, e);
    PublisherGrows(s, w, e);
    PublisherFrame(s, w, e);
    forall id | id in s'.db.outbox ensures RowInv(s', id) { RowAfterPublisher(s, w, e, id); }
    forall m | m in s'.db.messages ensures MessageInv(s'.db, m) { MessageAfterPublisher(s, w, e, m); }
    PublishersAfter(s, w, e);
  }

  lemma PublishersAfter(s: State, w: nat, e: PublisherEvent)
    requires OutboxInv(s) && PublisherEnabled(s, w, e)
    ensures PublishersInv(PublisherApply(s, w, e))
  {
    var s' := PublisherApply(s, w, e);
    forall v | v in s'.publishers ensures PublisherInv(s', s'.publishers[v]) {
      if v == w { ActorAfter(s, w, e); } else { BystanderAfter(s, w, e, v); }
    }
  }

  lemma EventKeepsOutboxInv(s: State, e: Event)
    requires OutboxInv(s) && Enabled(s, e)
    ensures OutboxInv(Apply(s, e))
  {
    match e {
      case OnDb(d) => DbEventKeeps(s, d);
      case OnPublisher(w, p) => PublisherEventKeeps(s, w, p);
      case _ => OtherEventKeeps(s, e);
    }
  }

  lemma {:induction false} RunKeepsOutboxInv(s: State, es: seq<Event>)
    requires OutboxInv(s) && Runs(s, es)
    ensures OutboxInv(After(s, es))
    decreases |es|
  {
    if es != [] {
      EventKeepsOutboxInv(s, es[0]);
      RunKeepsOutboxInv(Apply(s, es[0]), es[1..]);
    }
  }
}
