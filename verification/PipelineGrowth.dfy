/** What no event of the pipeline ever takes back: log records, deliveries, offline rows and
committed messages stay, and a member who has left is never again counted as having stayed. */
module PipelineGrowth {
  import opened PipelineState

  ghost predicate StampsBelow(k: Kafka) {
    forall p, i :: p in k.logs && 0 <= i < |k.logs[p]| ==> k.logs[p][i].stamp < k.stamp
  }

  ghost predicate EpisodesBelow(db: Db) {
    && (forall g, u :: g in db.groups && u in db.groups[g] ==> db.groups[g][u] < db.nextEpisode)
    && (forall m, u :: m in db.messages && u in db.messages[m].audience ==> db.messages[m].audience[u] < db.nextEpisode)
  }

  ghost predicate SincePast(s: State) {
    forall m :: m in s.db.messages ==> s.db.messages[m].since <= s.kafka.stamp
  }

  /** Whatever was saved offline for a user still has a row. */
  ghost predicate SavedInv(fx: Effects) {
    forall u, d :: (u, d) in fx.saved ==> (u, d.messageId) in fx.offline
  }

  ghost predicate BaseInv(s: State) {
    StampsBelow(s.kafka) && EpisodesBelow(s.db) && SincePast(s) && SavedInv(s.fx)
  }

  /** `u` belonged to the group when message `m` was committed, no later than `stamp`, and has
  not left since. */
  predicate Steady(db: Db, stamp: nat, m: nat, u: nat) {
    && m in db.messages && db.messages[m].since <= stamp
    && u in db.messages[m].audience
    && u in Members(db, db.messages[m].data.groupId)
    && Members(db, db.messages[m].data.groupId)[u] == db.messages[m].audience[u]
  }

  ghost predicate LogsGrow(k: Kafka, k': Kafka) {
    && k.stamp <= k'.stamp
    && forall p :: p in k.logs ==> p in k'.logs && k.logs[p] <= k'.logs[p]
  }

  ghost predicate MessagesKept(db: Db, db': Db) {
    forall m :: m in db.messages ==>
      && m in db'.messages
      && db'.messages[m].data == db.messages[m].data && db'.messages[m].since == db.messages[m].since
      && db'.messages[m].audience == db.messages[m].audience
  }

  ghost predicate SteadyShrinks(s: State, s': State) {
    forall stamp: nat, m, u :: stamp < s.kafka.stamp && Steady(s'.db, stamp, m, u) ==> Steady(s.db, stamp, m, u)
  }

  ghost predicate EffectsGrow(fx: Effects, fx': Effects) {
    && fx.delivered <= fx'.delivered
    && fx.saved <= fx'.saved && fx.offline.Keys <= fx'.offline.Keys
    && (forall u, m :: HasAcked(fx, u, m) ==> HasAcked(fx', u, m))
    && fx.served.Keys <= fx'.served.Keys
  }

  ghost predicate Grows(s: State, s': State) {
    && s'.cfg == s.cfg
    && LogsGrow(s.kafka, s'.kafka) && MessagesKept(s.db, s'.db) && EffectsGrow(s.fx, s'.fx)
    && SteadyShrinks(s, s')
  }

  lemma AppendGrows(k: Kafka, p: Partition, payload: Payload)
    requires StampsBelow(k)
    ensures LogsGrow(k, Append(k, p, payload)) && StampsBelow(Append(k, p, payload))
    ensures InLogAfter(Append(k, p, payload), p.topic, payload, k.stamp - 1)
  {
    var k' := Append(k, p, payload);
    assert k'.logs[p][|LogOf(k, p)|] == Entry(payload, k.stamp);
  }

  lemma ProduceGrows(k: Kafka, topic: Topic, index: nat, payload: Payload, ok: bool)
    requires StampsBelow(k)
    ensures LogsGrow(k, Produce(k, topic, index, payload, ok)) && StampsBelow(Produce(k, topic, index, payload, ok))
    ensures ok ==> InLogAfter(Produce(k, topic, index, payload, ok), topic, payload, k.stamp - 1)
  {
    if ok { AppendGrows(k, Partition(topic, index), payload); }
  }

  lemma InLogStays(k: Kafka, k': Kafka, topic: Topic, payload: Payload, since: int)
    requires LogsGrow(k, k') && InLogAfter(k, topic, payload, since)
    ensures InLogAfter(k', topic, payload, since)
  {
    var p, i :| p in k.logs && p.topic == topic && 0 <= i < |k.logs[p]|
                && k.logs[p][i].payload == payload && k.logs[p][i].stamp > since;
    assert k'.logs[p][i] == k.logs[p][i];
  }

  lemma EpisodesAfterDb(s: State, e: DbEvent)
    requires BaseInv(s) && DbEnabled(s.db, e)
    ensures EpisodesBelow(DbApply(s.db, s.kafka.stamp, e))
  {
    var db' := DbApply(s.db, s.kafka.stamp, e);
    forall g, u | g in db'.groups && u in db'.groups[g] ensures db'.groups[g][u] < db'.nextEpisode {
      assert u in Members(s.db, g) ==> Members(s.db, g)[u] < s.db.nextEpisode;
    }
  }

  /** Joining starts a new episode, so nobody becomes steady again. */
  lemma SteadyAfterDb(s: State, e: DbEvent, stamp: nat, m: nat, u: nat)
    requires BaseInv(s) && DbEnabled(s.db, e) && stamp < s.kafka.stamp
    requires Steady(DbApply(s.db, s.kafka.stamp, e), stamp, m, u)
    ensures Steady(s.db, stamp, m, u)
  {
    if e.Join? || e.CreateGroup? { assert s.db.messages[m].audience[u] < s.db.nextEpisode; }
  }

  /** Only database events touch messages and memberships. */
  lemma DbGrows(s: State, e: DbEvent)
    requires BaseInv(s) && DbEnabled(s.db, e)
    ensures var s' := Apply(s, OnDb(e)); BaseInv(s') && Grows(s, s')
  {
    EpisodesAfterDb(s, e);
    forall stamp: nat, m, u | stamp < s.kafka.stamp && Steady(DbApply(s.db, s.kafka.stamp, e), stamp, m, u)
      ensures Steady(s.db, stamp, m, u)
    {
      SteadyAfterDb(s, e, stamp, m, u);
    }
  }

  lemma PublisherGrows(s: State, w: nat, e: PublisherEvent)
    requires BaseInv(s) && PublisherEnabled(s, w, e)
    ensures var s' := PublisherApply(s, w, e); BaseInv(s') && Grows(s, s')
  {
    var p := PublisherOf(s, w);
    match e {
      case Publish(ok, index) => ProduceGrows(s.kafka, p.row.topic, index, p.row.payload, ok);
      case PublishDlq(ok, index) => ProduceGrows(s.kafka, Dlq, index, p.row.payload, ok);
      case _ =>
    }
    var s' := PublisherApply(s, w, e);
    assert s'.db.messages == s.db.messages && s'.db.groups == s.db.groups;
  }

  lemma ConsumerGrows(s: State, c: nat, e: ConsumerEvent)
    requires BaseInv(s) && ConsumerEnabled(s, c, e)
    ensures var s' := ConsumerApply(s, c, e); BaseInv(s') && Grows(s, s')
  {
    var ph := ConsumerOf(s, c).phase;
    match e {
      case Reject(ok, index) => ProduceGrows(s.kafka, Dlq, index, ph.payload, ok);
      case Requeue(ok, index) => ProduceGrows(s.kafka, Retry, index, Parsed(Scoped(ph.job.todo[0], ph.job.data)), ok);
      case SendDlq(ok, index) => ProduceGrows(s.kafka, Dlq, index, Parsed(Scoped(ph.job.todo[0], ph.job.data)), ok);
      case _ =>
    }
    assert ConsumerApply(s, c, e).db == s.db;
  }

  /** Every event only adds. */
  lemma EveryEventGrows(s: State, e: Event)
    requires BaseInv(s) && Enabled(s, e)
    ensures BaseInv(Apply(s, e)) && Grows(s, Apply(s, e))
  {
    match e {
      case OnDb(d) => DbGrows(s, d);
      case OnPublisher(w, p) => PublisherGrows(s, w, p);
      case OnConsumer(c, k) => ConsumerGrows(s, c, k);
      case LateAppend(t, payload, index) => AppendGrows(s.kafka, Partition(t, index), payload);
      case ForeignAppend(p, payload) => AppendGrows(s.kafka, p, payload);
      case ExpireRetry(_, _) =>
      case AckOffline(_, _) =>
    }
  }
}
