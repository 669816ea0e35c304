/** Concrete runs from the initial state: a recall that is lost, a recall that is overwritten, and a
record that no handler can get past. */
module Scenarios {
  import opened PipelineState
  import opened PushSafety
  import opened Quiescence
  import opened Recall
  import opened Drain
  import opened DrainExact

  ghost predicate Leads(s: State, es: seq<Event>, t: State) {
    Runs(s, es) && After(s, es) == t
  }

  lemma {:induction false} LeadsJoin(s: State, a: seq<Event>, t: State, b: seq<Event>, v: State)
    requires Leads(s, a, t) && Leads(t, b, v)
    ensures Leads(s, a + b, v)
    decreases |a|
  {
    if a == [] {
      assert a + b == b;
    } else {
      assert (a + b)[1..] == a[1..] + b;
      LeadsJoin(Apply(s, a[0]), a[1..], t, b, v);
    }
  }

  lemma LeadsOne(s: State, e: Event)
    requires Enabled(s, e)
    ensures Leads(s, [e], Apply(s, e))
  {
    assert [e][1..] == [];
    assert Runs(Apply(s, e), []);
  }

  lemma LeadsOn(s: State, es: seq<Event>, t: State, e: Event)
    requires Leads(s, es, t) && Enabled(t, e)
    ensures Leads(s, es + [e], Apply(t, e))
  {
    LeadsOne(t, e);
    LeadsJoin(s, es, t, [e], Apply(t, e));
  }

  // ---------------------------------------------------------------- pieces of runs

  /** An outbox worker carries one event through. */
  function PublishCalls(w: nat, id: nat, token: nat, index: nat): seq<Event> {
    [OnPublisher(w, Claim(id, token, 0, 0))] + [OnPublisher(w, Publish(true, index))]
        + [OnPublisher(w, MarkPublished(id, true))]
  }

  function Published(s: State, w: nat, id: nat, token: nat, index: nat): State
    requires id in s.db.outbox
  {
    var row := s.db.outbox[id];
    s.(db := s.db.(outbox := s.db.outbox[id := row.(status := PUBLISHED, token := 0, nextRetryAt := 0)],
                   usedTokens := s.db.usedTokens + {token}),
       kafka := Append(s.kafka, Partition(row.topic, index), row.payload),
       publishers := s.publishers[w := Idle])
  }

  lemma PublishRuns(s: State, w: nat, id: nat, token: nat, index: nat)
    requires PublisherOf(s, w).Idle? && id in s.db.outbox && Claimable(s.db.outbox[id], 0)
    requires token != 0 && token !in s.db.usedTokens
    ensures Leads(s, PublishCalls(w, id, token, index), Published(s, w, id, token, index))
  {
    var s1 := Apply(s, OnPublisher(w, Claim(id, token, 0, 0)));
    var s2 := Apply(s1, OnPublisher(w, Publish(true, index)));
    var s3 := Apply(s2, OnPublisher(w, MarkPublished(id, true)));
    LeadsOne(s, OnPublisher(w, Claim(id, token, 0, 0)));
    LeadsOn(s, [OnPublisher(w, Claim(id, token, 0, 0))], s1, OnPublisher(w, Publish(true, index)));
    LeadsOn(s, [OnPublisher(w, Claim(id, token, 0, 0))] + [OnPublisher(w, Publish(true, index))], s2,
            OnPublisher(w, MarkPublished(id, true)));
    var outbox := s.db.outbox;
    assert s3.db.outbox == outbox[id := outbox[id].(status := PUBLISHED, token := 0, nextRetryAt := 0)];
    assert s3.publishers == s.publishers[w := Idle];
    assert s3 == Published(s, w, id, token, index);
  }

  /** The next record of the partition is for `u` alone. */
  predicate NextFor(s: State, c: nat, p: Partition, u: nat, d: Data) {
    var me := ConsumerOf(s, c);
    && me.phase.Ready? && p in me.position && me.position[p] < |LogOf(s.kafka, p)|
    && LogOf(s.kafka, p)[me.position[p]].payload == Parsed(d) && Route(p.topic, Parsed(d)) == ToUser(u)
    && u != 0 && d.messageId != 0
  }

  function Fetched(s: State, c: nat, p: Partition, u: nat, d: Data): State
    requires NextFor(s, c, p, u, d)
  {
    var me := ConsumerOf(s, c);
    var i := me.position[p];
    s.(consumers := s.consumers[c := Consumer(me.position[p := i + 1], Fanning(Job(p, i, d, {u}, [u], 0), Looking))])
  }

  lemma FetchRuns(s: State, c: nat, p: Partition, u: nat, d: Data)
    requires NextFor(s, c, p, u, d)
    ensures Leads(s, [OnConsumer(c, Poll(p))] + [OnConsumer(c, Dispatch([]))], Fetched(s, c, p, u, d))
  {
    var s1 := Apply(s, OnConsumer(c, Poll(p)));
    var s2 := Apply(s1, OnConsumer(c, Dispatch([])));
    LeadsOne(s, OnConsumer(c, Poll(p)));
    LeadsOn(s, [OnConsumer(c, Poll(p))], s1, OnConsumer(c, Dispatch([])));
    assert s2.consumers == Fetched(s, c, p, u, d).consumers;
  }

  /** The user is done: the record is finished and committed. */
  function Closed(s: State, c: nat, p: Partition, i: nat, u: nat): State {
    var me := ConsumerOf(s, c);
    s.(fx := s.fx.(served := s.fx.served[(p, i) := {u}]),
       kafka := s.kafka.(committed := s.kafka.committed[p := i + 1]),
       consumers := s.consumers[c := Consumer(me.position, Ready)])
  }

  lemma CloseRuns(s: State, c: nat, p: Partition, i: nat, u: nat, d: Data)
    requires ConsumerOf(s, c).phase == Fanning(Job(p, i, d, {u}, [], 0), Looking)
    ensures Leads(s, [OnConsumer(c, Finish)] + [OnConsumer(c, Commit(true, true))], Closed(s, c, p, i, u))
  {
    var s1 := Apply(s, OnConsumer(c, Finish));
    var s2 := Apply(s1, OnConsumer(c, Commit(true, true)));
    LeadsOne(s, OnConsumer(c, Finish));
    LeadsOn(s, [OnConsumer(c, Finish)], s1, OnConsumer(c, Commit(true, true)));
    assert s2.consumers == Closed(s, c, p, i, u).consumers;
  }

  function FetchCalls(c: nat, p: Partition): seq<Event> { [OnConsumer(c, Poll(p))] + [OnConsumer(c, Dispatch([]))] }
  function CloseCalls(c: nat): seq<Event> { [OnConsumer(c, Finish)] + [OnConsumer(c, Commit(true, true))] }

  /** Nobody online: the record is saved offline. */
  function SaveCalls(c: nat, p: Partition): seq<Event> {
    FetchCalls(c, p) + ([OnConsumer(c, Lookup(0))] + [OnConsumer(c, SaveOffline(true, true))]) + CloseCalls(c)
  }

  function Saved(s: State, c: nat, p: Partition, u: nat, d: Data): State
    requires NextFor(s, c, p, u, d)
  {
    var me := ConsumerOf(s, c);
    var i := me.position[p];
    s.(fx := WriteOffline(s.fx, u, Scoped(u, d)).(served := s.fx.served[(p, i) := {u}]),
       kafka := s.kafka.(committed := s.kafka.committed[p := i + 1]),
       consumers := s.consumers[c := Consumer(me.position[p := i + 1], Ready)])
  }

  /** A push of one user under way at the given call. */
  predicate PushAt(s: State, c: nat, p: Partition, i: nat, u: nat, d: Data, push: Push) {
    c in s.consumers && s.consumers[c].phase == Fanning(Job(p, i, d, {u}, [u], 0), push)
  }

  function Pushed(s: State, c: nat, p: Partition, i: nat, u: nat, d: Data, fx: Effects): State
    requires c in s.consumers
  {
    s.(fx := fx, consumers := s.consumers[c :=
                                          Consumer(s.consumers[c].position,
                                                   Fanning(Job(p, i, d, {u}, [], 0), Looking))])
  }

  lemma SaveMiddle(s: State, c: nat, p: Partition, i: nat, u: nat, d: Data)
    requires PushAt(s, c, p, i, u, d, Looking) && u != 0 && d.messageId != 0
    ensures Leads(s, [OnConsumer(c, Lookup(0))] + [OnConsumer(c, SaveOffline(true, true))],
                  Pushed(s, c, p, i, u, d, WriteOffline(s.fx, u, Scoped(u, d))))
  {
    var s1 := Apply(s, OnConsumer(c, Lookup(0)));
    LeadsOne(s, OnConsumer(c, Lookup(0)));
    LeadsOn(s, [OnConsumer(c, Lookup(0))], s1, OnConsumer(c, SaveOffline(true, true)));
    assert [u][1..] == [];
    assert Apply(s1, OnConsumer(c, SaveOffline(true, true))).consumers
        == Pushed(s, c, p, i, u, d, WriteOffline(s.fx, u, Scoped(u, d))).consumers;
  }

  lemma SaveRuns(s: State, c: nat, p: Partition, u: nat, d: Data)
    requires NextFor(s, c, p, u, d)
    ensures Leads(s, SaveCalls(c, p), Saved(s, c, p, u, d))
  {
    FetchRuns(s, c, p, u, d);
    var s1 := Fetched(s, c, p, u, d);
    var i := ConsumerOf(s, c).position[p];
    SaveMiddle(s1, c, p, i, u, d);
    var s2 := Pushed(s1, c, p, i, u, d, WriteOffline(s1.fx, u, Scoped(u, d)));
    CloseRuns(s2, c, p, i, u, d);
    var s3 := Closed(s2, c, p, i, u);
    assert s3.consumers == Saved(s, c, p, u, d).consumers;
    var middle := [OnConsumer(c, Lookup(0))] + [OnConsumer(c, SaveOffline(true, true))];
    Three(s, FetchCalls(c, p), s1, middle, s2, CloseCalls(c), s3);
  }

  lemma Three(s: State, a: seq<Event>, s1: State, b: seq<Event>, s2: State, c: seq<Event>, s3: State)
    requires Leads(s, a, s1) && Leads(s1, b, s2) && Leads(s2, c, s3)
    ensures Leads(s, a + b + c, s3)
  {
    LeadsJoin(s, a, s1, b, s2);
    LeadsJoin(s, a + b, s2, c, s3);
  }

  /** One device that does not answer: the record is queued for retry. */
  function RetryCalls(c: nat, p: Partition): seq<Event> {
    FetchCalls(c, p)
    + (([OnConsumer(c, Lookup(1))] + [OnConsumer(c, Deliver(false, false))])
       + ([OnConsumer(c, CountRetry(true, true))] + [OnConsumer(c, Requeue(true, 0))]))
    + CloseCalls(c)
  }

  function Requeued(s: State, c: nat, p: Partition, u: nat, d: Data): State
    requires NextFor(s, c, p, u, d)
  {
    var me := ConsumerOf(s, c);
    var i := me.position[p];
    s.(fx := s.fx.(retries := s.fx.retries[(d.messageId, u) := RetryCountOf(s.fx, d.messageId, u) + 1],
                   served := s.fx.served[(p, i) := {u}]),
       kafka := Append(s.kafka, Partition(Retry, 0), Parsed(Scoped(u, d))).(committed := s.kafka.committed[p := i + 1]),
       consumers := s.consumers[c := Consumer(me.position[p := i + 1], Ready)])
  }

  lemma DeviceSilent(s: State, c: nat, p: Partition, i: nat, u: nat, d: Data)
    requires PushAt(s, c, p, i, u, d, Looking) && u != 0 && d.messageId != 0
    ensures Leads(s, [OnConsumer(c, Lookup(1))] + [OnConsumer(c, Deliver(false, false))],
                  s.(consumers := s.consumers[c :=
                                              Consumer(s.consumers[c].position,
                                                       Fanning(Job(p, i, d, {u}, [u], 0), Counting))]))
  {
    var s1 := Apply(s, OnConsumer(c, Lookup(1)));
    LeadsOne(s, OnConsumer(c, Lookup(1)));
    LeadsOn(s, [OnConsumer(c, Lookup(1))], s1, OnConsumer(c, Deliver(false, false)));
    assert Apply(s1, OnConsumer(c, Deliver(false, false))).consumers
        == s.consumers[c := Consumer(s.consumers[c].position, Fanning(Job(p, i, d, {u}, [u], 0), Counting))];
  }

  function Counted(fx: Effects, u: nat, d: Data): Effects {
    fx.(retries := fx.retries[(d.messageId, u) := RetryCountOf(fx, d.messageId, u) + 1])
  }

  lemma QueueAgain(s: State, c: nat, p: Partition, i: nat, u: nat, d: Data)
    requires PushAt(s, c, p, i, u, d, Counting) && RetryCountOf(s.fx, d.messageId, u) < s.cfg.pushMaxRetry
    ensures Leads(s, [OnConsumer(c, CountRetry(true, true))] + [OnConsumer(c, Requeue(true, 0))],
                  Pushed(s, c, p, i, u, d, Counted(s.fx, u, d)).(kafka :=
                                                                 Append(s.kafka, Partition(Retry, 0),
                                                                        Parsed(Scoped(u, d)))))
  {
    var s1 := Apply(s, OnConsumer(c, CountRetry(true, true)));
    LeadsOne(s, OnConsumer(c, CountRetry(true, true)));
    LeadsOn(s, [OnConsumer(c, CountRetry(true, true))], s1, OnConsumer(c, Requeue(true, 0)));
    assert [u][1..] == [];
    assert Apply(s1, OnConsumer(c, Requeue(true, 0))).consumers
           == Pushed(s, c, p, i, u, d, Counted(s.fx, u, d)).consumers;
  }

  lemma RetryRuns(s: State, c: nat, p: Partition, u: nat, d: Data)
    requires NextFor(s, c, p, u, d) && RetryCountOf(s.fx, d.messageId, u) < s.cfg.pushMaxRetry
    ensures Leads(s, RetryCalls(c, p), Requeued(s, c, p, u, d))
  {
    FetchRuns(s, c, p, u, d);
    var s1 := Fetched(s, c, p, u, d);
    var i := ConsumerOf(s, c).position[p];
    DeviceSilent(s1, c, p, i, u, d);
    var s2 := s1.(consumers := s1.consumers[c :=
                                            Consumer(s1.consumers[c].position,
                                                     Fanning(Job(p, i, d, {u}, [u], 0), Counting))]);
    QueueAgain(s2, c, p, i, u, d);
    var s3 := Pushed(s2, c, p, i, u, d,
                     Counted(s2.fx, u, d)).(kafka := Append(s2.kafka, Partition(Retry, 0), Parsed(Scoped(u, d))));
    var b1 := [OnConsumer(c, Lookup(1))] + [OnConsumer(c, Deliver(false, false))];
    var b2 := [OnConsumer(c, CountRetry(true, true))] + [OnConsumer(c, Requeue(true, 0))];
    LeadsJoin(s1, b1, s2, b2, s3);
    CloseRuns(s3, c, p, i, u, d);
    RequeuedIs(s, c, p, u, d, s3);
    Three(s, FetchCalls(c, p), s1, b1 + b2, s3, CloseCalls(c), Requeued(s, c, p, u, d));
  }

  lemma RequeuedIs(s: State, c: nat, p: Partition, u: nat, d: Data, s3: State)
    requires NextFor(s, c, p, u, d) && c in s3.consumers
    requires s3 == s.(fx := Counted(s.fx, u, d), consumers := s3.consumers,
                      kafka := Append(s.kafka, Partition(Retry, 0), Parsed(Scoped(u, d))))
    requires s3.consumers == s.consumers[c := s3.consumers[c]]
    requires var me := ConsumerOf(s, c); s3.consumers[c].position == me.position[p := me.position[p] + 1]
    ensures Closed(s3, c, p, ConsumerOf(s, c).position[p], u) == Requeued(s, c, p, u, d)
  {
    assert Closed(s3, c, p, ConsumerOf(s, c).position[p], u).consumers == Requeued(s, c, p, u, d).consumers;
  }

  // ---------------------------------------------------------------- a recall that is lost

  const HELLO: Data := Data(1, 10, 20, 0, "hello", false)
  const SINGLE0: Partition := Partition(Single, 0)
  const RETRY0: Partition := Partition(Retry, 0)

  function AssignCalls(c: nat, p: Partition, q: Partition): seq<Event> {
    [OnConsumer(c, Assign(p))] + [OnConsumer(c, Assign(q))]
  }

  lemma AssignRuns(s: State, c: nat, p: Partition, q: Partition)
    requires c !in s.consumers && p != q && CommittedOf(s.kafka, p) == 0 && CommittedOf(s.kafka, q) == 0
    ensures Leads(s, AssignCalls(c, p, q), s.(consumers := s.consumers[c := Consumer(map[p := 0, q := 0], Ready)]))
  {
    var s1 := Apply(s, OnConsumer(c, Assign(p)));
    LeadsOne(s, OnConsumer(c, Assign(p)));
    LeadsOn(s, [OnConsumer(c, Assign(p))], s1, OnConsumer(c, Assign(q)));
    assert Apply(s1, OnConsumer(c, Assign(q))).consumers == s.consumers[c := Consumer(map[p := 0, q := 0], Ready)];
  }

  const ROW: Row := Row(1, false, Single, Parsed(HELLO), PUBLISHED, 0, 0, 0)
  const NOTHING: Effects := Effects({}, map[], {}, map[], map[])

  /** The message is committed and published, and worker 3 is about to consume it. */
  function SentRun(): seq<Event> {
    [OnDb(CommitSend(HELLO))] + PublishCalls(1, 1, 1, 0) + AssignCalls(3, SINGLE0, RETRY0)
  }

  function SentDb(): Db {
    Db(map[1 := Message(HELLO, map[], 0, None)], map[1 := ROW], {1}, map[], map[], {}, 0)
  }

  function SentState(cfg: Config): State {
    State(cfg, SentDb(), Kafka(map[SINGLE0 := [Entry(Parsed(HELLO), 0)]], map[], 1, {}), NOTHING,
          map[1 := Idle], map[3 := Consumer(map[SINGLE0 := 0, RETRY0 := 0], Ready)])
  }

  lemma SentLeads(cfg: Config)
    ensures Leads(Initial(cfg), SentRun(), SentState(cfg))
  {
    var s0 := Initial(cfg);
    var s1 := s0.(db := Db(map[1 := Message(HELLO, map[], 0, None)], map[1 := ROW.(status := PENDING)], {}, map[],
                           map[], {}, 0));
    LeadsOne(s0, OnDb(CommitSend(HELLO)));
    assert Apply(s0, OnDb(CommitSend(HELLO))) == s1;
    SentPublished(cfg, s1);
    var s2 := SentState(cfg).(consumers := map[]);
    AssignRuns(s2, 3, SINGLE0, RETRY0);
    assert SentState(cfg).consumers == s2.consumers[3 := Consumer(map[SINGLE0 := 0, RETRY0 := 0], Ready)];
    Three(s0, [OnDb(CommitSend(HELLO))], s1, PublishCalls(1, 1, 1, 0), s2, AssignCalls(3, SINGLE0, RETRY0),
          SentState(cfg));
  }

  lemma SentPublished(cfg: Config, s1: State)
    requires s1 == Initial(cfg).(db :=
                                 Db(map[1 := Message(HELLO, map[], 0, None)], map[1 := ROW.(status := PENDING)], {},
                                    map[], map[], {}, 0))
    ensures Leads(s1, PublishCalls(1, 1, 1, 0), SentState(cfg).(consumers := map[]))
  {
    PublishRuns(s1, 1, 1, 1, 0);
    var s2 := Published(s1, 1, 1, 1, 0);
    assert [] + [Entry(Parsed(HELLO), 0)] == [Entry(Parsed(HELLO), 0)];
    assert s2.db.outbox == map[1 := ROW] && s2.db.usedTokens == {1};
    assert s2.kafka.logs == map[SINGLE0 := [Entry(Parsed(HELLO), 0)]];
    assert s2.publishers == map[1 := Idle];
  }

  const BYE: Data := HELLO.(recalled := true)
  const RECALL_ROW: Row := Row(1, true, Single, Parsed(BYE), PUBLISHED, 0, 0, 0)

  /** The message is recalled and the recall published. */
  function RecallRun(): seq<Event> {
    [OnDb(CommitRecall(1, 2))] + PublishCalls(1, 2, 2, 0)
  }

  function RecalledDb(): Db {
    Db(map[1 := Message(HELLO, map[], 0, Some(2))], map[1 := ROW, 2 := RECALL_ROW], {1, 2}, map[], map[], {}, 0)
  }

  lemma RecallRuns(s: State)
    requires s.db == SentDb() && s.publishers == map[1 := Idle]
    ensures Leads(s, RecallRun(), s.(db := RecalledDb(), kafka := Append(s.kafka, SINGLE0, Parsed(BYE))))
  {
    var e := OnDb(CommitRecall(1, 2));
    var s1 := Apply(s, e);
    LeadsOne(s, e);
    assert s1.db.outbox[2] == RECALL_ROW.(status := PENDING);
    PublishRuns(s1, 1, 2, 2, 0);
    var s2 := Published(s1, 1, 2, 2, 0);
    assert s2.db.outbox == RecalledDb().outbox && s2.db.messages == RecalledDb().messages && s2.db.usedTokens == {1, 2};
    assert s2.publishers == map[1 := Idle];
    LeadsJoin(s, [e], s1, PublishCalls(1, 2, 2, 0), s2);
  }

  /** The user saves the message, acknowledges it, and is offline again when the recall comes. */
  function LostRun(): seq<Event> {
    SentRun() + SaveCalls(3, SINGLE0) + [AckOffline(1, 20)] + (RecallRun() + SaveCalls(3, SINGLE0))
  }

  /** Everything is published and committed, the recall too; the user has acknowledged, and the recall is nowhere. */
  ghost predicate RecallGone(s: State) {
    && s.db == RecalledDb() && Quiet(s) && Recipient(s, 1, 20) && !Reached(s, 20, BYE)
    && RowHolds(s, 20, HELLO) && HasAcked(s.fx, 20, 1)
  }

  function At(single: nat, retry: nat): map<nat, Consumer> {
    map[3 := Consumer(map[SINGLE0 := single, RETRY0 := retry], Ready)]
  }

  lemma Moves(a: nat, b: nat, x: nat)
    ensures At(a, b)[3 := Consumer(At(a, b)[3].position[SINGLE0 := x], Ready)] == At(x, b)
    ensures At(a, b)[3 := Consumer(At(a, b)[3].position[RETRY0 := x], Ready)] == At(a, x)
  {
    var m: map<Partition, nat> := map[SINGLE0 := a, RETRY0 := b];
    assert m[SINGLE0 := x] == map[SINGLE0 := x, RETRY0 := b];
    assert m[RETRY0 := x] == map[SINGLE0 := a, RETRY0 := x];
  }

  function AckedState(cfg: Config): State {
    State(cfg, SentDb(), Kafka(map[SINGLE0 := [Entry(Parsed(HELLO), 0)]], map[SINGLE0 := 1], 1, {}),
          Effects({}, map[(20, 1) := OfflineRow(HELLO, true)], {(20, HELLO)}, map[], map[(SINGLE0, 0) := {20}]),
          map[1 := Idle], At(1, 0))
  }

  lemma SavedFirst(cfg: Config)
    ensures NextFor(SentState(cfg), 3, SINGLE0, 20, HELLO)
    ensures var s := AckedState(cfg);
            Saved(SentState(cfg), 3, SINGLE0, 20, HELLO)
                == s.(fx := s.fx.(offline := map[(20, 1) := OfflineRow(HELLO, false)]))
  {
    var s := Saved(SentState(cfg), 3, SINGLE0, 20, HELLO);
    Moves(0, 0, 1);
    assert s.consumers == At(1, 0);
    assert s.fx.offline == map[(20, 1) := OfflineRow(HELLO, false)] && s.fx.saved == {(20, HELLO)};
    assert s.fx.served == map[(SINGLE0, 0) := {20}] && s.kafka.committed == map[SINGLE0 := 1];
  }

  lemma Acknowledged(cfg: Config, s1: State)
    requires s1 == AckedState(cfg).(fx := AckedState(cfg).fx.(offline := map[(20, 1) := OfflineRow(HELLO, false)]))
    ensures Enabled(s1, AckOffline(1, 20)) && Apply(s1, AckOffline(1, 20)) == AckedState(cfg)
  {
    assert Apply(s1, AckOffline(1, 20)).fx.offline == map[(20, 1) := OfflineRow(HELLO, true)];
  }

  lemma AckedLeads(cfg: Config)
    ensures Leads(Initial(cfg), SentRun() + SaveCalls(3, SINGLE0) + [AckOffline(1, 20)], AckedState(cfg))
  {
    SentLeads(cfg);
    SavedFirst(cfg);
    var s0 := SentState(cfg);
    var s1 := Saved(s0, 3, SINGLE0, 20, HELLO);
    SaveRuns(s0, 3, SINGLE0, 20, HELLO);
    Acknowledged(cfg, s1);
    LeadsOne(s1, AckOffline(1, 20));
    Three(Initial(cfg), SentRun(), s0, SaveCalls(3, SINGLE0), s1, [AckOffline(1, 20)], AckedState(cfg));
  }

  function LostState(cfg: Config): State {
    var s := AckedState(cfg);
    s.(db := RecalledDb(), consumers := At(2, 0),
       fx := s.fx.(served := map[(SINGLE0, 0) := {20}, (SINGLE0, 1) := {20}]),
       kafka := Kafka(map[SINGLE0 := [Entry(Parsed(HELLO), 0), Entry(Parsed(BYE), 1)]], map[SINGLE0 := 2], 2, {}))
  }

  lemma RecallIgnored(cfg: Config)
    ensures var s := AckedState(cfg);
            var s1 := s.(db := RecalledDb(), kafka := Append(s.kafka, SINGLE0, Parsed(BYE)));
            NextFor(s1, 3, SINGLE0, 20, BYE) && Saved(s1, 3, SINGLE0, 20, BYE) == LostState(cfg)
  {
    var s := AckedState(cfg);
    var s1 := s.(db := RecalledDb(), kafka := Append(s.kafka, SINGLE0, Parsed(BYE)));
    assert [Entry(Parsed(HELLO), 0)] + [Entry(Parsed(BYE), 1)] == [Entry(Parsed(HELLO), 0), Entry(Parsed(BYE), 1)];
    assert s1.kafka.logs == LostState(cfg).kafka.logs;
    Moves(1, 0, 2);
    var s2 := Saved(s1, 3, SINGLE0, 20, BYE);
    assert s2.consumers == At(2, 0) && s2.kafka.committed == map[SINGLE0 := 2];
    assert s2.fx.served == LostState(cfg).fx.served;
  }

  lemma LostIsGone(cfg: Config)
    ensures RecallGone(LostState(cfg))
  {
    var s := LostState(cfg);
    assert forall p :: p in s.kafka.logs ==> p == SINGLE0;
  }

  /** A recall can be lost: a reachable quiet state in which a recipient was not reached with it. */
  lemma RecallLost(cfg: Config)
    ensures Runs(Initial(cfg), LostRun()) && RecallGone(After(Initial(cfg), LostRun()))
  {
    AckedLeads(cfg);
    var s := AckedState(cfg);
    RecallRuns(s);
    var s1 := s.(db := RecalledDb(), kafka := Append(s.kafka, SINGLE0, Parsed(BYE)));
    RecallIgnored(cfg);
    SaveRuns(s1, 3, SINGLE0, 20, BYE);
    LeadsJoin(s, RecallRun(), s1, SaveCalls(3, SINGLE0), LostState(cfg));
    LeadsJoin(Initial(cfg), SentRun() + SaveCalls(3, SINGLE0) + [AckOffline(1, 20)], s,
              RecallRun() + SaveCalls(3, SINGLE0), LostState(cfg));
    LostIsGone(cfg);
  }

  /** The message waits on the retry topic while the recall is saved, and is saved after it. */
  function OverwrittenRun(): seq<Event> {
    SentRun() + RetryCalls(3, SINGLE0) + RecallRun() + (SaveCalls(3, SINGLE0) + SaveCalls(3, RETRY0))
  }

  /** The recall was saved, but the row holds the message again. */
  ghost predicate RecallHidden(s: State) {
    s.db == RecalledDb() && Quiet(s) && Recipient(s, 1, 20) && (20, BYE) in s.fx.saved && RowHolds(s, 20, HELLO)
  }

  function RetryState(cfg: Config): State {
    State(cfg, SentDb(),
          Kafka(map[SINGLE0 := [Entry(Parsed(HELLO), 0)], RETRY0 := [Entry(Parsed(HELLO), 1)]], map[SINGLE0 := 1], 2,
                {}),
          Effects({}, map[], {}, map[(1, 20) := 1], map[(SINGLE0, 0) := {20}]), map[1 := Idle], At(1, 0))
  }

  lemma RequeuedFirst(cfg: Config)
    ensures NextFor(SentState(cfg), 3, SINGLE0, 20, HELLO)
    ensures Requeued(SentState(cfg), 3, SINGLE0, 20, HELLO) == RetryState(cfg)
  {
    var s := Requeued(SentState(cfg), 3, SINGLE0, 20, HELLO);
    assert [] + [Entry(Parsed(HELLO), 1)] == [Entry(Parsed(HELLO), 1)];
    Moves(0, 0, 1);
    assert s.kafka.logs == RetryState(cfg).kafka.logs && s.kafka.committed == map[SINGLE0 := 1];
    assert s.consumers == At(1, 0) && s.fx.retries == map[(1, 20) := 1] && s.fx.served == map[(SINGLE0, 0) := {20}];
  }

  /** The recall is published and the message still waits for its retry. */
  function CrossedState(cfg: Config): State {
    RetryState(cfg).(db := RecalledDb(),
                     kafka := Kafka(map[SINGLE0 := [Entry(Parsed(HELLO), 0), Entry(Parsed(BYE), 2)],
                                        RETRY0 := [Entry(Parsed(HELLO), 1)]],
                                    map[SINGLE0 := 1], 3, {}))
  }

  lemma CrossedLeads(cfg: Config)
    requires cfg.pushMaxRetry > 0
    ensures Leads(Initial(cfg), SentRun() + RetryCalls(3, SINGLE0) + RecallRun(), CrossedState(cfg))
  {
    SentLeads(cfg);
    RequeuedFirst(cfg);
    var s0, s1 := SentState(cfg), RetryState(cfg);
    RetryRuns(s0, 3, SINGLE0, 20, HELLO);
    RecallRuns(s1);
    CrossedIs(cfg);
    Three(Initial(cfg), SentRun(), s0, RetryCalls(3, SINGLE0), s1, RecallRun(), CrossedState(cfg));
  }

  lemma CrossedIs(cfg: Config)
    ensures var s1 := RetryState(cfg);
            s1.(db := RecalledDb(), kafka := Append(s1.kafka, SINGLE0, Parsed(BYE))) == CrossedState(cfg)
  {
    assert [Entry(Parsed(HELLO), 0)] + [Entry(Parsed(BYE), 2)] == [Entry(Parsed(HELLO), 0), Entry(Parsed(BYE), 2)];
    assert Append(RetryState(cfg).kafka, SINGLE0, Parsed(BYE)).logs == CrossedState(cfg).kafka.logs;
  }

  function HiddenState(cfg: Config): State {
    var s := CrossedState(cfg);
    s.(kafka := s.kafka.(committed := map[SINGLE0 := 2, RETRY0 := 1]), consumers := At(2, 1),
       fx := s.fx.(offline := map[(20, 1) := OfflineRow(HELLO, false)], saved := {(20, BYE), (20, HELLO)},
                   served := map[(SINGLE0, 0) := {20}, (SINGLE0, 1) := {20}, (RETRY0, 0) := {20}]))
  }

  /** The recall is saved. */
  function SavedRecall(cfg: Config): State {
    var s := CrossedState(cfg);
    s.(kafka := s.kafka.(committed := map[SINGLE0 := 2]), consumers := At(2, 0),
       fx := s.fx.(offline := map[(20, 1) := OfflineRow(BYE, false)], saved := {(20, BYE)},
                   served := map[(SINGLE0, 0) := {20}, (SINGLE0, 1) := {20}]))
  }

  lemma RecallSaved(cfg: Config)
    ensures NextFor(CrossedState(cfg), 3, SINGLE0, 20, BYE)
    ensures Saved(CrossedState(cfg), 3, SINGLE0, 20, BYE) == SavedRecall(cfg)
  {
    var s := Saved(CrossedState(cfg), 3, SINGLE0, 20, BYE);
    Moves(1, 0, 2);
    assert s.consumers == At(2, 0) && s.kafka.committed == map[SINGLE0 := 2];
    assert s.fx.offline == map[(20, 1) := OfflineRow(BYE, false)] && s.fx.saved == {(20, BYE)};
    assert s.fx.served == SavedRecall(cfg).fx.served;
  }

  lemma MessageSaved(cfg: Config)
    ensures NextFor(SavedRecall(cfg), 3, RETRY0, 20, HELLO)
    ensures Saved(SavedRecall(cfg), 3, RETRY0, 20, HELLO) == HiddenState(cfg)
  {
    var s := Saved(SavedRecall(cfg), 3, RETRY0, 20, HELLO);
    Moves(2, 0, 1);
    assert s.consumers == At(2, 1) && s.kafka.committed == map[SINGLE0 := 2, RETRY0 := 1];
    assert s.fx.offline == map[(20, 1) := OfflineRow(HELLO, false)];
    assert s.fx.served == HiddenState(cfg).fx.served;
  }

  lemma HiddenIsHidden(cfg: Config)
    ensures RecallHidden(HiddenState(cfg))
  {
    var s := HiddenState(cfg);
    assert forall p :: p in s.kafka.logs ==> p == SINGLE0 || p == RETRY0;
  }

  /** A recall that was saved can be overwritten by the message it recalls. */
  lemma RecallOverwritten(cfg: Config)
    requires cfg.pushMaxRetry > 0
    ensures Runs(Initial(cfg), OverwrittenRun()) && RecallHidden(After(Initial(cfg), OverwrittenRun()))
  {
    CrossedLeads(cfg);
    RecallSaved(cfg);
    MessageSaved(cfg);
    var s, s1 := CrossedState(cfg), SavedRecall(cfg);
    SaveRuns(s, 3, SINGLE0, 20, BYE);
    SaveRuns(s1, 3, RETRY0, 20, HELLO);
    LeadsJoin(s, SaveCalls(3, SINGLE0), s1, SaveCalls(3, RETRY0), HiddenState(cfg));
    LeadsJoin(Initial(cfg), SentRun() + RetryCalls(3, SINGLE0) + RecallRun(), s,
              SaveCalls(3, SINGLE0) + SaveCalls(3, RETRY0), HiddenState(cfg));
    HiddenIsHidden(cfg);
  }

  // ---------------------------------------------------------------- a record nobody can get past

  const NEWS: Data := Data(1, 10, 0, 5, "news", false)
  const GROUP0: Partition := Partition(Group, 0)

  /** The owner of a group without other members sends a message and leaves past an owner check that
  failed. */
  function OwnerRun(): seq<Event> {
    [OnDb(CreateGroup(5, 10))] + [OnDb(CommitSend(NEWS))] + [OnDb(OwnerLeave(5))]
  }

  /** All this before the message is pushed. */
  function EmptiedRun(): seq<Event> {
    OwnerRun() + PublishCalls(1, 1, 1, 0) + AssignCalls(3, GROUP0, RETRY0)
  }

  lemma Emptied(cfg: Config) returns (s: State)
    ensures Leads(Initial(cfg), OwnerRun(), s)
    ensures s == Initial(cfg).(db := s.db) && Members(s.db, 5) == map[] && s.db.usedTokens == {}
    ensures s.db.outbox == map[1 := NewRow(1, false, NEWS)]
  {
    var s0 := Initial(cfg);
    var s1 := Apply(s0, OnDb(CreateGroup(5, 10)));
    var s2 := Apply(s1, OnDb(CommitSend(NEWS)));
    LeadsOne(s0, OnDb(CreateGroup(5, 10)));
    LeadsOn(s0, [OnDb(CreateGroup(5, 10))], s1, OnDb(CommitSend(NEWS)));
    LeadsOn(s0, [OnDb(CreateGroup(5, 10))] + [OnDb(CommitSend(NEWS))], s2, OnDb(OwnerLeave(5)));
    s := Apply(s2, OnDb(OwnerLeave(5)));
  }

  /** Poison is reachable: this run ends with a worker about to consume such a record. */
  lemma PoisonReachable(cfg: Config)
    ensures Runs(Initial(cfg), EmptiedRun())
    ensures var s := After(Initial(cfg), EmptiedRun());
            && AtStart(s, 3, [GROUP0, RETRY0]) && Untouched(s, GROUP0, 0)
            && LogOf(s.kafka, GROUP0)[0].payload == Parsed(NEWS) && Poison(s, GROUP0, Parsed(NEWS))
  {
    var s0 := Emptied(cfg);
    PublishRuns(s0, 1, 1, 1, 0);
    var s1 := Published(s0, 1, 1, 1, 0);
    PoisonPublished(s0, s1);
    AssignRuns(s1, 3, GROUP0, RETRY0);
    var s2 := s1.(consumers := s1.consumers[3 := Consumer(map[GROUP0 := 0, RETRY0 := 0], Ready)]);
    Three(Initial(cfg), OwnerRun(), s0, PublishCalls(1, 1, 1, 0), s1,
          AssignCalls(3, GROUP0, RETRY0), s2);
    PoisonAssigned(s1, s2);
  }

  lemma PoisonPublished(s0: State, s1: State)
    requires s0.kafka == Kafka(map[], map[], 0, {}) && s0.consumers == map[] && Members(s0.db, 5) == map[]
    requires s0.db.outbox == map[1 := NewRow(1, false, NEWS)] && s1 == Published(s0, 1, 1, 1, 0)
    ensures LogOf(s1.kafka, GROUP0) == [Entry(Parsed(NEWS), 0)] && s1.kafka.committed == map[] &&
            Members(s1.db, 5) == map[]
    ensures s1.consumers == map[] && LogOf(s1.kafka, RETRY0) == []
  {
    assert [] + [Entry(Parsed(NEWS), 0)] == [Entry(Parsed(NEWS), 0)];
  }

  lemma PoisonAssigned(s1: State, s2: State)
    requires LogOf(s1.kafka, GROUP0) == [Entry(Parsed(NEWS), 0)] && s1.kafka.committed == map[] &&
             Members(s1.db, 5) == map[]
    requires LogOf(s1.kafka, RETRY0) == [] && s1.consumers == map[]
    requires s2 == s1.(consumers := s1.consumers[3 := Consumer(map[GROUP0 := 0, RETRY0 := 0], Ready)])
    ensures AtStart(s2, 3, [GROUP0, RETRY0]) && Poison(s2, GROUP0, Parsed(NEWS)) && Untouched(s2, GROUP0, 0)
  {
    var parts := [GROUP0, RETRY0];
    assert parts[1] == RETRY0 && RETRY0 in parts;
    assert forall p :: p in parts ==> p == GROUP0 || p == RETRY0;
  }

  /** Whatever happens after that run, with the group left empty, its partition is never drained. */
  lemma StuckForever(cfg: Config, es: seq<Event>)
    requires Runs(Initial(cfg), EmptiedRun()) && Runs(After(Initial(cfg), EmptiedRun()), es)
    requires forall e :: e in es ==> SameGroup(e, GROUP0, Parsed(NEWS))
    ensures var s := After(After(Initial(cfg), EmptiedRun()), es);
            CommittedOf(s.kafka, GROUP0) == 0 < |LogOf(s.kafka, GROUP0)|
  {
    PoisonReachable(cfg);
    PoisonBlocksAll(After(Initial(cfg), EmptiedRun()), es, GROUP0, 0);
  }
}
