/** The records the pipeline itself produces: none of them blocks a backlog unless the owner of its group
was removed past a failed owner check. */
module OwnRecords {
  import opened PipelineState
  import opened Drain
  import opened DrainExact
  import opened DrainMany
  import PushSteps

  // ---------------------------------------------------------------- what the pipeline writes

  /** Not refused outright, and for a group that was created. */
  ghost predicate Own(db: Db, topic: Topic, payload: Payload) {
    match Route(topic, payload)
    case ToDlq => true
    case ToUser(u) => !Refused(payload.data, u)
    case ToGroup(g) => g in db.groups && payload.data.messageId != 0
  }

  ghost predicate KafkaOwn(db: Db, k: Kafka) {
    && (forall p, i :: p in k.logs && 0 <= i < |k.logs[p]| ==> Own(db, p.topic, k.logs[p][i].payload))
    && (forall t, payload :: (t, payload) in k.limbo ==> Own(db, t, payload))
  }

  ghost predicate RowsOwn(db: Db) {
    && (forall id :: id in db.outbox ==> Own(db, db.outbox[id].topic, db.outbox[id].payload))
    && (forall m :: m in db.messages ==> db.messages[m].data.groupId == 0 || db.messages[m].data.groupId in db.groups)
  }

  ghost predicate ActorOwn(db: Db, p: Publisher) {
    !p.Idle? ==> Own(db, p.row.topic, p.row.payload)
  }

  /** A push under way is for a user and a message that are not refused. */
  predicate PushOwn(ph: Phase) {
    ph.Fanning? && ph.job.todo != [] && !ph.push.Looking? ==> !Refused(ph.job.data, ph.job.todo[0])
  }

  ghost predicate WorkersOwn(s: State) {
    && (forall w :: w in s.publishers ==> ActorOwn(s.db, s.publishers[w]))
    && (forall c :: c in s.consumers ==> PushOwn(s.consumers[c].phase))
  }

  /** Members are users, owners are members, and only members of created groups ever sent. */
  ghost predicate GroupsOwn(db: Db) {
    && (forall g, u :: (g, u) in db.joined ==> g in db.groups)
    && (forall g, u :: g in db.groups && u in db.groups[g] ==> u != 0)
    && (forall g :: g in db.owners ==> g in db.groups && db.owners[g] in db.groups[g])
  }

  ghost predicate OwnInv(s: State) {
    KafkaOwn(s.db, s.kafka) && RowsOwn(s.db) && WorkersOwn(s) && GroupsOwn(s.db)
  }

  // ---------------------------------------------------------------- events

  lemma KafkaStaysOwn(db: Db, db': Db, k: Kafka)
    requires KafkaOwn(db, k) && db.groups.Keys <= db'.groups.Keys
    ensures KafkaOwn(db', k)
  {
    forall p, i | p in k.logs && 0 <= i < |k.logs[p]| ensures Own(db', p.topic, k.logs[p][i].payload) {
      assert Own(db, p.topic, k.logs[p][i].payload);
    }
    forall t, payload | (t, payload) in k.limbo ensures Own(db', t, payload) { assert Own(db, t, payload); }
  }

  lemma ProduceOwn(db: Db, k: Kafka, topic: Topic, index: nat, payload: Payload, ok: bool)
    requires KafkaOwn(db, k) && Own(db, topic, payload)
    ensures KafkaOwn(db, Produce(k, topic, index, payload, ok))
  {
  }

  lemma NewRowOwn(db: Db, m: nat, isRecall: bool, d: Data)
    requires d.groupId == 0 || d.groupId in db.groups
    ensures var row := NewRow(m, isRecall, d); Own(db, row.topic, row.payload)
  {
  }

  lemma DbGroupsOwn(db: Db, stamp: nat, e: DbEvent)
    requires GroupsOwn(db) && DbEnabled(db, e)
    ensures GroupsOwn(DbApply(db, stamp, e)) && db.groups.Keys <= DbApply(db, stamp, e).groups.Keys
  {
  }

  lemma DbRowsOwn(db: Db, stamp: nat, e: DbEvent)
    requires GroupsOwn(db) && RowsOwn(db) && DbEnabled(db, e)
    ensures RowsOwn(DbApply(db, stamp, e))
  {
    var db' := DbApply(db, stamp, e);
    DbGroupsOwn(db, stamp, e);
    forall id | id in db'.outbox ensures Own(db', db'.outbox[id].topic, db'.outbox[id].payload) {
      if id in db.outbox && db'.outbox[id] == db.outbox[id] {
        assert Own(db, db.outbox[id].topic, db.outbox[id].payload);
      } else if e.CommitSend? {
        NewRowOwn(db', e.data.messageId, false, e.data);
      } else {
        NewRowOwn(db', e.messageId, true, db.messages[e.messageId].data.(recalled := true));
      }
    }
  }

  lemma DbEventOwn(s: State, e: DbEvent)
    requires OwnInv(s) && DbEnabled(s.db, e)
    ensures OwnInv(Apply(s, OnDb(e)))
  {
    var s' := Apply(s, OnDb(e));
    DbGroupsOwn(s.db, s.kafka.stamp, e);
    DbRowsOwn(s.db, s.kafka.stamp, e);
    KafkaStaysOwn(s.db, s'.db, s.kafka);
    forall w | w in s'.publishers ensures ActorOwn(s'.db, s'.publishers[w]) {
      assert ActorOwn(s.db, s.publishers[w]);
    }
  }

  lemma PublisherKafkaOwn(s: State, w: nat, e: PublisherEvent)
    requires OwnInv(s) && PublisherEnabled(s, w, e)
    ensures KafkaOwn(s.db, PublisherApply(s, w, e).kafka)
  {
    var p := PublisherOf(s, w);
    match e {
      case Publish(ok, index) => ProduceOwn(s.db, s.kafka, p.row.topic, index, p.row.payload, ok);
      case PublishDlq(ok, index) => ProduceOwn(s.db, s.kafka, Dlq, index, p.row.payload, ok);
      case _ =>
    }
  }

  lemma PublisherDbOwn(s: State, w: nat, e: PublisherEvent)
    requires PublisherEnabled(s, w, e) && RowsOwn(s.db) && GroupsOwn(s.db)
    ensures var db' := PublisherApply(s, w, e).db;
            RowsOwn(db') && GroupsOwn(db') && db'.groups == s.db.groups
  {
    var db' := PublisherApply(s, w, e).db;
    forall id | id in db'.outbox ensures Own(db', db'.outbox[id].topic, db'.outbox[id].payload) {
      assert Own(s.db, s.db.outbox[id].topic, s.db.outbox[id].payload);
    }
  }

  lemma PublisherEventOwn(s: State, w: nat, e: PublisherEvent)
    requires OwnInv(s) && PublisherEnabled(s, w, e)
    ensures OwnInv(PublisherApply(s, w, e))
  {
    var s' := PublisherApply(s, w, e);
    PublisherKafkaOwn(s, w, e);
    PublisherDbOwn(s, w, e);
    KafkaStaysOwn(s.db, s'.db, s'.kafka);
    PublisherWorkersOwn(s, w, e);
  }

  lemma PublisherWorkersOwn(s: State, w: nat, e: PublisherEvent)
    requires WorkersOwn(s) && RowsOwn(s.db) && PublisherEnabled(s, w, e)
    ensures WorkersOwn(PublisherApply(s, w, e))
  {
    var s' := PublisherApply(s, w, e);
    if e.Claim? { assert Own(s.db, s.db.outbox[e.eventId].topic, s.db.outbox[e.eventId].payload); }
    forall v | v in s'.publishers ensures ActorOwn(s'.db, s'.publishers[v]) {
      if v in s.publishers { assert ActorOwn(s.db, s.publishers[v]); }
    }
    assert s'.consumers == s.consumers;
  }

  /** Only pushToUser writes to the retry topic, for a user and a message it has not refused. */
  lemma ConsumerKafkaOwn(s: State, c: nat, e: ConsumerEvent)
    requires KafkaOwn(s.db, s.kafka) && PushOwn(ConsumerOf(s, c).phase) && ConsumerEnabled(s, c, e)
    ensures KafkaOwn(s.db, ConsumerApply(s, c, e).kafka)
  {
    var ph := ConsumerOf(s, c).phase;
    match e {
      case Reject(ok, index) => ProduceOwn(s.db, s.kafka, Dlq, index, ph.payload, ok);
      case Requeue(ok, index) =>
        ProduceOwn(s.db, s.kafka, Retry, index, Parsed(Scoped(ph.job.todo[0], ph.job.data)), ok);
      case SendDlq(ok, index) =>
        ProduceOwn(s.db, s.kafka, Dlq, index, Parsed(Scoped(ph.job.todo[0], ph.job.data)), ok);
      case _ =>
    }
  }

  lemma ConsumerPhaseOwn(s: State, c: nat, e: ConsumerEvent)
    requires PushOwn(ConsumerOf(s, c).phase) && ConsumerEnabled(s, c, e)
    ensures PushOwn(ConsumerOf(ConsumerApply(s, c, e), c).phase)
  {
  }

  lemma ConsumerEventOwn(s: State, c: nat, e: ConsumerEvent)
    requires OwnInv(s) && ConsumerEnabled(s, c, e)
    ensures OwnInv(ConsumerApply(s, c, e))
  {
    var s' := ConsumerApply(s, c, e);
    ConsumerKafkaOwn(s, c, e);
    ConsumerPhaseOwn(s, c, e);
    PushSteps.ConsumerFrame(s, c, e);
    forall b | b in s'.consumers ensures PushOwn(s'.consumers[b].phase) {
      if b != c { assert PushOwn(s.consumers[b].phase); }
    }
  }

  lemma EventOwn(s: State, e: Event)
    requires OwnInv(s) && Enabled(s, e) && !e.ForeignAppend?
    ensures OwnInv(Apply(s, e))
  {
    match e {
      case OnDb(d) => DbEventOwn(s, d);
      case OnPublisher(w, p) => PublisherEventOwn(s, w, p);
      case OnConsumer(c, k) => ConsumerEventOwn(s, c, k);
      case LateAppend(t, payload, index) => ProduceOwn(s.db, s.kafka, t, index, payload, true);
      case ExpireRetry(_, _) =>
      case AckOffline(_, _) =>
    }
  }

  /** Nobody but the pipeline writes to its topics. */
  ghost predicate NothingForeign(es: seq<Event>) {
    forall e :: e in es ==> !e.ForeignAppend?
  }

  lemma {:induction false} RunOwn(s: State, es: seq<Event>)
    requires OwnInv(s) && Runs(s, es) && NothingForeign(es)
    ensures OwnInv(After(s, es))
    decreases |es|
  {
    if es != [] {
      EventOwn(s, es[0]);
      RunOwn(Apply(s, es[0]), es[1..]);
    }
  }

  // ---------------------------------------------------------------- who empties a group

  ghost predicate OwnerRemoved(es: seq<Event>, g: nat) {
    OnDb(OwnerLeave(g)) in es
  }

  lemma OwnerStays(s: State, e: Event, g: nat)
    requires Enabled(s, e) && e != OnDb(OwnerLeave(g)) && (g in s.db.groups ==> g in s.db.owners)
    ensures g in Apply(s, e).db.groups ==> g in Apply(s, e).db.owners
  {
    match e {
      case OnPublisher(w, p) => assert PublisherApply(s, w, p).db.owners == s.db.owners;
      case OnConsumer(c, k) => assert ConsumerApply(s, c, k).db == s.db;
      case _ =>
    }
  }

  lemma {:induction false} OwnerStaysOn(s: State, es: seq<Event>, g: nat)
    requires Runs(s, es) && !OwnerRemoved(es, g) && (g in s.db.groups ==> g in s.db.owners)
    ensures g in After(s, es).db.groups ==> g in After(s, es).db.owners
    decreases |es|
  {
    if es != [] {
      assert es[0] in es;
      OwnerStays(s, es[0], g);
      OwnerStaysOn(Apply(s, es[0]), es[1..], g);
    }
  }

  // ---------------------------------------------------------------- theorems

  /** In every run in which nobody else writes to the topics, a record of any log is poison if and only if
  it is for a group that has nobody left. */
  lemma PoisonIffEmpty(cfg: Config, es: seq<Event>, p: Partition, i: nat)
    requires Runs(Initial(cfg), es) && NothingForeign(es) && i < |LogOf(After(Initial(cfg), es).kafka, p)|
    ensures var s := After(Initial(cfg), es);
            var payload := LogOf(s.kafka, p)[i].payload;
            Poison(s, p, payload) <==>
              Route(p.topic, payload).ToGroup? && Members(s.db, Route(p.topic, payload).group).Keys == {}
  {
    RunOwn(Initial(cfg), es);
    var s := After(Initial(cfg), es);
    assert Own(s.db, p.topic, s.kafka.logs[p][i].payload);
  }

  /** And a group that a message was sent to has nobody left only if its owner was removed, past a failed
  owner check. */
  lemma EmptyNeedsOwner(cfg: Config, es: seq<Event>, p: Partition, i: nat)
    requires Runs(Initial(cfg), es) && NothingForeign(es) && i < |LogOf(After(Initial(cfg), es).kafka, p)|
    ensures var s := After(Initial(cfg), es);
            var r := Route(p.topic, LogOf(s.kafka, p)[i].payload);
            r.ToGroup? && Members(s.db, r.group).Keys == {} ==> OwnerRemoved(es, r.group)
  {
    RunOwn(Initial(cfg), es);
    var s := After(Initial(cfg), es);
    assert Own(s.db, p.topic, s.kafka.logs[p][i].payload);
    var r := Route(p.topic, LogOf(s.kafka, p)[i].payload);
    if r.ToGroup? && !OwnerRemoved(es, r.group) {
      OwnerStaysOn(Initial(cfg), es, r.group);
      assert s.db.owners[r.group] in Members(s.db, r.group);
    }
  }

  /** The owner of no group that a record of the backlog is for was removed. */
  ghost predicate OwnersKept(s: State, es: seq<Event>, parts: seq<Partition>) {
    forall p, i :: p in parts && CommittedOf(s.kafka, p) <= i < |LogOf(s.kafka, p)| ==>
      var r := Route(p.topic, LogOf(s.kafka, p)[i].payload);
      r.ToGroup? ==> !OwnerRemoved(es, r.group)
  }

  lemma OwnBacklogHasNoPoison(cfg: Config, es: seq<Event>, parts: seq<Partition>)
    requires Runs(Initial(cfg), es) && NothingForeign(es) && OwnersKept(After(Initial(cfg), es), es, parts)
    ensures NoPoison(After(Initial(cfg), es), parts)
  {
    var s := After(Initial(cfg), es);
    forall p, i | p in parts && CommittedOf(s.kafka, p) <= i < |LogOf(s.kafka, p)|
      ensures !Poison(s, p, LogOf(s.kafka, p)[i].payload)
    {
      PoisonIffEmpty(cfg, es, p, i);
      EmptyNeedsOwner(cfg, es, p, i);
      assert var r := Route(p.topic, LogOf(s.kafka, p)[i].payload); r.ToGroup? ==> !OwnerRemoved(es, r.group);
    }
  }

  /** So every backlog the pipeline itself produces drains, by any workers that share its partitions,
  unless the owner of a group it is for was removed. */
  lemma OwnBacklogDrains(cfg: Config, es: seq<Event>, owner: map<Partition, nat>, workers: seq<nat>,
                         parts: seq<Partition>)
    returns (t: Team)
    requires Runs(Initial(cfg), es) && NothingForeign(es) && OwnersKept(After(Initial(cfg), es), es, parts)
    requires TeamAtStart(After(Initial(cfg), es), owner, workers, parts)
    ensures t.z.parts == parts && t.owner == owner && t.workers == workers && TeamInv(t, After(Initial(cfg), es))
  {
    OwnBacklogHasNoPoison(cfg, es, parts);
    t := TeamStarts(After(Initial(cfg), es), owner, workers, parts);
  }
}
