/** The delivery pipeline as a step system: the state, the events and what each event does.

An event is one database transaction, one Kafka, Redis or gateway call, one crash, or one
membership change; it carries every choice the outside world makes. Workers keep a phase that
says which call of the source code comes next, so any interleaving of any number of outbox
workers and push workers is a sequence of events. */
module PipelineState {

  // ---------------------------------------------------------------- messages and logs

  datatype Topic = Single | Group | Retry | Dlq | Other(name: string)

  datatype Partition = Partition(topic: Topic, index: nat)

  /** The protobuf MessageData carried by Kafka records and offline rows. */
  datatype Data = Data(messageId: nat, fromUser: nat, toUser: nat, groupId: nat, content: string, recalled: bool)

  /** A record either parses as MessageData or does not. */
  datatype Payload = Parsed(data: Data) | Malformed(raw: string)

  /** `stamp` numbers appends over all partitions, in the order the brokers made them. */
  datatype Entry = Entry(payload: Payload, stamp: nat)

  /** `limbo` holds the records whose produce call reported failure: each may still be appended,
  any number of times and at any later moment, or never. */
  datatype Kafka = Kafka(logs: map<Partition, seq<Entry>>,
                         committed: map<Partition, nat>,
                         stamp: nat,
                         limbo: set<(Topic, Payload)>)

  function LogOf(k: Kafka, p: Partition): seq<Entry> {
    if p in k.logs then k.logs[p] else []
  }

  function CommittedOf(k: Kafka, p: Partition): nat {
    if p in k.committed then k.committed[p] else 0
  }

  function Append(k: Kafka, p: Partition, payload: Payload): Kafka {
    k.(logs := k.logs[p := LogOf(k, p) + [Entry(payload, k.stamp)]], stamp := k.stamp + 1)
  }

  /** KafkaProducer::produce: true means the record was appended, false leaves it in limbo. */
  function Produce(k: Kafka, topic: Topic, index: nat, payload: Payload, ok: bool): Kafka {
    if ok then Append(k, Partition(topic, index), payload)
    else k.(limbo := k.limbo + {(topic, payload)})
  }

  /** Some partition of `topic` holds `payload` in a record appended after `since`. */
  ghost predicate InLogAfter(k: Kafka, topic: Topic, payload: Payload, since: int) {
    exists p, i :: p in k.logs && p.topic == topic && 0 <= i < |k.logs[p]|
                   && k.logs[p][i].payload == payload && k.logs[p][i].stamp > since
  }

  ghost predicate InLog(k: Kafka, topic: Topic, payload: Payload) {
    InLogAfter(k, topic, payload, -1)
  }

  // ---------------------------------------------------------------- database

  datatype Option<T> = None | Some(value: T)

  /** A committed message. `audience` is the group's membership when the message was committed,
  each member with the number of their current membership episode; records appended from the
  commit on have stamps of at least `since`. */
  datatype Message = Message(data: Data, audience: map<nat, nat>, since: nat, recallEvent: Option<nat>)

  datatype Status = PENDING | PUBLISHED | FAILED | DEAD | PUBLISHING

  /** A row of outbox_events. Token 0 is the empty claim_token. */
  datatype Row = Row(aggregateId: nat, isRecall: bool, topic: Topic, payload: Payload,
                     status: Status, retryCount: nat, nextRetryAt: int, token: nat)

  /** `owners` are the members with role 1, and `joined` everybody who ever was in a group. */
  datatype Db = Db(messages: map<nat, Message>,
                   outbox: map<nat, Row>,
                   usedTokens: set<nat>,
                   groups: map<nat, map<nat, nat>>,
                   owners: map<nat, nat>,
                   joined: set<(nat, nat)>,
                   nextEpisode: nat)

  function Members(db: Db, group: nat): map<nat, nat> {
    if group in db.groups then db.groups[group] else map[]
  }

  function TopicFor(d: Data): Topic {
    if d.groupId == 0 then Single else Group
  }

  // ---------------------------------------------------------------- workers

  /** OutboxWorker::runOnce between two calls; `row` is the event as it was read by the claim. */
  datatype Publisher =
    | Idle
    | Claimed(eventId: nat, row: Row, token: nat)
    | MarkingPublished(eventId: nat, row: Row, token: nat)
    | DeadLettering(eventId: nat, row: Row, token: nat)
    | MarkingDead(eventId: nat, row: Row, token: nat)
    | MarkingFailed(eventId: nat, row: Row, token: nat, counted: bool)

  /** PushDispatcher::pushToUser between two calls, for the user at the head of the work list. */
  datatype Push =
    | Looking                            // about to read the user's online devices
    | Delivering(left: nat, any: bool)   // devices still to try, and whether one accepted
    | Clearing                           // delivered; about to clear the retry counter
    | Counting                           // about to increment the retry counter
    | Requeueing                         // about to produce to the retry topic
    | DeadLetter                         // about to produce to the DLQ topic
    | SavingAfterDlq(dlqOk: bool)        // about to save offline, the result is ignored
    | SavingOffline                      // no device online: about to save offline

  /** The record a push worker is handling and the users still to be pushed to. */
  datatype Job = Job(part: Partition, offset: nat, data: Data, targets: set<nat>, todo: seq<nat>, failed: nat)

  /** PushWorker::run between two calls. */
  datatype Phase =
    | Ready
    | Polled(part: Partition, offset: nat)
    | Rejecting(part: Partition, offset: nat, payload: Payload)
    | Fanning(job: Job, push: Push)
    | Handled(part: Partition, offset: nat, ok: bool)
    | Rewinding(part: Partition, offset: nat)
    | Stopped

  datatype Consumer = Consumer(position: map<Partition, nat>, phase: Phase)

  datatype OfflineRow = OfflineRow(data: Data, acked: bool)

  /** What the push workers leave behind. `saved` and `served` are history: the payloads written
  to the offline table, and the users a record was fanned out to by the run of the handler that
  succeeded. */
  datatype Effects = Effects(delivered: set<(nat, Data)>,
                             offline: map<(nat, nat), OfflineRow>,
                             saved: set<(nat, Data)>,
                             retries: map<(nat, nat), nat>,
                             served: map<(Partition, nat), set<nat>>)

  predicate HasAcked(fx: Effects, u: nat, m: nat) {
    (u, m) in fx.offline && fx.offline[(u, m)].acked
  }

  /** insertOfflineMessage: one row per user and message; a row the client acked is not changed. */
  function WriteOffline(fx: Effects, u: nat, d: Data): Effects {
    if HasAcked(fx, u, d.messageId) then fx
    else fx.(offline := fx.offline[(u, d.messageId) := OfflineRow(d, false)], saved := fx.saved + {(u, d)})
  }

  /** markAsAcked: an UPDATE, which changes nothing where there is no row. */
  function MarkAcked(fx: Effects, u: nat, m: nat): Effects {
    if (u, m) in fx.offline then fx.(offline := fx.offline[(u, m) := fx.offline[(u, m)].(acked := true)]) else fx
  }

  /** `max_retry_count` of OutboxWorker and of PushRetryManager, whether a DLQ topic is configured
  for the outbox, and skip_sender_for_group. */
  datatype Config = Config(outboxMaxRetry: nat, outboxHasDlq: bool, pushMaxRetry: nat, skipSender: bool)

  datatype State = State(cfg: Config, db: Db, kafka: Kafka, fx: Effects,
                         publishers: map<nat, Publisher>, consumers: map<nat, Consumer>)

  function Initial(cfg: Config): State {
    State(cfg, Db(map[], map[], {}, map[], map[], {}, 0), Kafka(map[], map[], 0, {}),
          Effects({}, map[], {}, map[], map[]), map[], map[])
  }

  function PublisherOf(s: State, w: nat): Publisher {
    if w in s.publishers then s.publishers[w] else Idle
  }

  function ConsumerOf(s: State, c: nat): Consumer {
    if c in s.consumers then s.consumers[c] else Consumer(map[], Ready)
  }

  // ---------------------------------------------------------------- routing

  datatype Routing = ToDlq | ToUser(user: nat) | ToGroup(group: nat)

  /** The branches of PushWorker::handleKafkaMessage and of its three topic handlers. */
  function Route(topic: Topic, payload: Payload): Routing {
    match payload
    case Malformed(_) => ToDlq
    case Parsed(d) =>
      match topic
      case Single => if d.messageId == 0 || d.fromUser == 0 || d.toUser == 0 then ToDlq else ToUser(d.toUser)
      case Group => if d.messageId == 0 || d.fromUser == 0 || d.groupId == 0 then ToDlq else ToGroup(d.groupId)
      case Retry => if d.toUser != 0 then ToUser(d.toUser) else if d.groupId != 0 then ToGroup(d.groupId) else ToDlq
      case _ => ToDlq
  }

  /** messageForRecipient: a group message copied for one member names that member. */
  function Scoped(user: nat, d: Data): Data {
    if d.toUser == 0 then d.(toUser := user) else d
  }

  // ---------------------------------------------------------------- events

  datatype DbEvent =
    | CommitSend(data: Data)
    | CommitRecall(messageId: nat, eventId: nat)
    | CreateGroup(group: nat, user: nat)
    | Join(group: nat, user: nat)
    | Leave(group: nat, user: nat)
    | OwnerLeave(group: nat)

  datatype PublisherEvent =
    | Claim(eventId: nat, token: nat, now: int, leaseUntil: int)
    | Publish(ok: bool, index: nat)
    | PublishDlq(ok: bool, index: nat)
    | MarkPublished(eventId: nat, applied: bool)
    | MarkDead(eventId: nat, applied: bool)
    | MarkFailed(eventId: nat, counted: bool, applied: bool, nextRetryAt: int)
    | WorkerCrash

  datatype ConsumerEvent =
    | Assign(part: Partition)
    | Restart
    | Poll(part: Partition)
    | StopAfterPoll
    | Dispatch(members: seq<nat>)
    | Reject(ok: bool, index: nat)
    | RefuseUser
    | Lookup(devices: nat)
    | Deliver(ok: bool, reached: bool)
    | ClearRetry(applied: bool)
    | CountRetry(ok: bool, applied: bool)
    | Requeue(ok: bool, index: nat)
    | SendDlq(ok: bool, index: nat)
    | SaveOffline(ok: bool, applied: bool)
    | Finish
    | Commit(ok: bool, applied: bool)
    | Seek(ok: bool)

  datatype Event =
    | OnDb(db: DbEvent)
    | OnPublisher(w: nat, pe: PublisherEvent)
    | OnConsumer(c: nat, ce: ConsumerEvent)
    | LateAppend(topic: Topic, payload: Payload, index: nat)
    | ForeignAppend(part: Partition, foreign: Payload)
    | ExpireRetry(messageId: nat, user: nat)
    | AckOffline(messageId: nat, user: nat)

  // ---------------------------------------------------------------- database events

  function NewRow(aggregateId: nat, isRecall: bool, d: Data): Row {
    Row(aggregateId, isRecall, TopicFor(d), Parsed(d), PENDING, 0, 0, 0)
  }

  /** What the two send handlers check and build: a single message names a recipient other than
  its sender, a group message names a group and no recipient. */
  predicate Addressed(d: Data) {
    d.fromUser != 0 && !d.recalled
    && if d.groupId == 0 then d.toUser != 0 && d.toUser != d.fromUser else d.toUser == 0
  }

  /** SendGroupMessage checks the sender's membership before its transaction, so the sender was a member
  at some time. */
  predicate MaySend(db: Db, d: Data) {
    d.groupId == 0 || (d.groupId, d.fromUser) in db.joined
  }

  predicate IsOwner(db: Db, g: nat, u: nat) {
    g in db.owners && db.owners[g] == u
  }

  /** LeaveGroup refuses the owner; an OwnerLeave gets past that because isOwner answers false when it has
  no connection or its query fails. */
  predicate DbEnabled(db: Db, e: DbEvent) {
    match e
    case CommitSend(d) => Addressed(d) && MaySend(db, d) && d.messageId !in db.messages && d.messageId !in db.outbox
    case CommitRecall(m, id) => m in db.messages && db.messages[m].recallEvent.None? && id !in db.outbox
    case CreateGroup(g, u) => g != 0 && u != 0 && g !in db.groups
    case Join(g, u) => u != 0 && g in db.groups && u !in db.groups[g]
    case Leave(g, u) => u in Members(db, g) && !IsOwner(db, g, u)
    case OwnerLeave(g) => g in db.owners
  }

  function Entered(db: Db, g: nat, u: nat): Db {
    db.(groups := db.groups[g := Members(db, g)[u := db.nextEpisode]], joined := db.joined + {(g, u)},
        nextEpisode := db.nextEpisode + 1)
  }

  /** A send or recall transaction writes its message row and its outbox row together. */
  function DbApply(db: Db, stamp: nat, e: DbEvent): Db
    requires DbEnabled(db, e)
  {
    match e
    case CommitSend(d) =>
      db.(messages := db.messages[d.messageId := Message(d, Members(db, d.groupId), stamp, None)],
          outbox := db.outbox[d.messageId := NewRow(d.messageId, false, d)])
    case CommitRecall(m, id) =>
      db.(messages := db.messages[m := db.messages[m].(recallEvent := Some(id))],
          outbox := db.outbox[id := NewRow(m, true, db.messages[m].data.(recalled := true))])
    case CreateGroup(g, u) => Entered(db, g, u).(owners := db.owners[g := u])
    case Join(g, u) => Entered(db, g, u)
    case Leave(g, u) => db.(groups := db.groups[g := Members(db, g) - {u}])
    case OwnerLeave(g) => db.(groups := db.groups[g := Members(db, g) - {db.owners[g]}], owners := db.owners - {g})
  }

  // ---------------------------------------------------------------- outbox worker events

  /** The WHERE clause of the claiming SELECT. */
  predicate Claimable(row: Row, now: int) {
    row.status in {PENDING, FAILED, PUBLISHING} && row.nextRetryAt <= now
  }

  /** The WHERE clause of the three mark statements. */
  predicate Owned(db: Db, eventId: nat, token: nat) {
    eventId in db.outbox && db.outbox[eventId].status == PUBLISHING && db.outbox[eventId].token == token
  }

  /** A mark that does not change the row either lost its claim or failed in the database. */
  predicate PublisherEnabled(s: State, w: nat, e: PublisherEvent) {
    var p := PublisherOf(s, w);
    match e
    case Claim(id, token, now, _) =>
      p.Idle? && id in s.db.outbox && Claimable(s.db.outbox[id], now) && token != 0 && token !in s.db.usedTokens
    case Publish(_, _) => p.Claimed?
    case PublishDlq(ok, _) => p.DeadLettering? && (ok ==> s.cfg.outboxHasDlq)
    case MarkPublished(id, applied) =>
      p.MarkingPublished? && p.eventId == id && (applied ==> Owned(s.db, id, p.token))
    case MarkDead(id, applied) =>
      p.MarkingDead? && p.eventId == id && (applied ==> Owned(s.db, id, p.token))
    case MarkFailed(id, counted, applied, _) =>
      p.MarkingFailed? && p.eventId == id && p.counted == counted && (applied ==> Owned(s.db, id, p.token))
    case WorkerCrash => true
  }

  function SetRow(s: State, id: nat, row: Row): Db {
    s.db.(outbox := s.db.outbox[id := row])
  }

  function PublisherApply(s: State, w: nat, e: PublisherEvent): State
    requires PublisherEnabled(s, w, e)
  {
    var p := PublisherOf(s, w);
    match e
    case Claim(id, token, _, leaseUntil) =>
      var row := s.db.outbox[id];
      var claimed := row.(status := PUBLISHING, token := token, nextRetryAt := leaseUntil);
      s.(db := SetRow(s, id, claimed).(usedTokens := s.db.usedTokens + {token}),
         publishers := s.publishers[w := Claimed(id, row, token)])
    case Publish(ok, index) =>
      var next := if ok then MarkingPublished(p.eventId, p.row, p.token)
                  else if p.row.retryCount + 1 > s.cfg.outboxMaxRetry then DeadLettering(p.eventId, p.row, p.token)
                  else MarkingFailed(p.eventId, p.row, p.token, true);
      s.(kafka := Produce(s.kafka, p.row.topic, index, p.row.payload, ok), publishers := s.publishers[w := next])
    case PublishDlq(ok, index) =>
      var next := if ok then MarkingDead(p.eventId, p.row, p.token)
                  else MarkingFailed(p.eventId, p.row, p.token, false);
      s.(kafka := if s.cfg.outboxHasDlq then Produce(s.kafka, Dlq, index, p.row.payload, ok) else s.kafka,
         publishers := s.publishers[w := next])
    case MarkPublished(id, applied) =>
      var s' := s.(publishers := s.publishers[w := Idle]);
      if !applied then s' else s'.(db := SetRow(s, id, s.db.outbox[id].(status := PUBLISHED, token := 0)))
    case MarkDead(id, applied) =>
      var s' := s.(publishers := s.publishers[w := Idle]);
      if !applied then s' else s'.(db := SetRow(s, id, s.db.outbox[id].(status := DEAD, token := 0)))
    case MarkFailed(id, counted, applied, nextRetryAt) =>
      var s' := s.(publishers := s.publishers[w := Idle]);
      var count := if counted then p.row.retryCount + 1 else p.row.retryCount;
      if !applied then s'
      else s'.(db := SetRow(s, id,
                            s.db.outbox[id].(status := FAILED, token := 0, retryCount := count,
                                             nextRetryAt := nextRetryAt)))
    case WorkerCrash => s.(publishers := s.publishers[w := Idle])
  }

  // ---------------------------------------------------------------- push worker events

  function RetryCountOf(fx: Effects, m: nat, u: nat): nat {
    if (m, u) in fx.retries then fx.retries[(m, u)] else 0
  }

  predicate At(ph: Phase, push: Push) {
    ph.Fanning? && ph.job.todo != [] && ph.push == push
  }

  predicate ConsumerEnabled(s: State, c: nat, e: ConsumerEvent) {
    var me := ConsumerOf(s, c);
    var ph := me.phase;
    match e
    case Assign(_) => ph.Ready?
    case Restart => true
    case Poll(p) => ph.Ready? && p in me.position && me.position[p] < |LogOf(s.kafka, p)|
    case StopAfterPoll => ph.Polled?
    case Dispatch(members) =>
      && ph.Polled? && ph.offset < |LogOf(s.kafka, ph.part)|
      && (var r := Route(ph.part.topic, LogOf(s.kafka, ph.part)[ph.offset].payload);
          // listMembers returns the whole membership, or nothing when the query fails
          r.ToGroup? ==> (set u | u in members) == Members(s.db, r.group).Keys || members == [])
    case Reject(_, _) => ph.Rejecting?
    case RefuseUser => At(ph, Looking) && (ph.job.todo[0] == 0 || ph.job.data.messageId == 0)
    case Lookup(_) => At(ph, Looking) && ph.job.todo[0] != 0 && ph.job.data.messageId != 0
    case Deliver(ok, reached) =>
      ph.Fanning? && ph.job.todo != [] && ph.push.Delivering? && ph.push.left > 0 && (ok ==> reached)
    case ClearRetry(_) => At(ph, Clearing)
    case CountRetry(ok, applied) => At(ph, Counting) && (ok ==> applied)
    case Requeue(_, _) => At(ph, Requeueing)
    case SendDlq(_, _) => At(ph, DeadLetter)
    case SaveOffline(ok, applied) =>
      ph.Fanning? && ph.job.todo != [] && (ph.push.SavingOffline? || ph.push.SavingAfterDlq?) && (ok ==> applied)
    case Finish => ph.Fanning? && ph.job.todo == []
    case Commit(ok, applied) => ph.Handled? && ph.ok && (ok ==> applied)
    case Seek(_) => ph.Rewinding? || (ph.Handled? && !ph.ok)
  }

  function SetPhase(s: State, c: nat, ph: Phase): map<nat, Consumer> {
    s.consumers[c := ConsumerOf(s, c).(phase := ph)]
  }

  /** pushToUser returned `ok` for the user at the head of the work list. */
  function UserDone(job: Job, ok: bool): Phase
    requires job.todo != []
  {
    Fanning(job.(todo := job.todo[1..], failed := if ok then job.failed else job.failed + 1), Looking)
  }

  /** pushToGroup skips the sender when configured to. */
  function FanOut(members: seq<nat>, sender: nat, skipSender: bool): seq<nat> {
    if members == [] then []
    else if skipSender && members[0] == sender then FanOut(members[1..], sender, skipSender)
    else [members[0]] + FanOut(members[1..], sender, skipSender)
  }

  function DispatchTo(s: State, part: Partition, offset: nat, payload: Payload, members: seq<nat>): Phase {
    match Route(part.topic, payload)
    case ToDlq => Rejecting(part, offset, payload)
    case ToUser(u) => Fanning(Job(part, offset, payload.data, {u}, [u], 0), Looking)
    case ToGroup(g) =>
      if members == [] then Handled(part, offset, false)
      else
        var targets := FanOut(members, payload.data.fromUser, s.cfg.skipSender);
        Fanning(Job(part, offset, payload.data, (set u | u in targets), targets, 0), Looking)
  }

  function AfterLookup(devices: nat): Push {
    if devices > 0 then Delivering(devices, false) else SavingOffline
  }

  function AfterDelivery(left: nat, any: bool): Push {
    if left > 0 then Delivering(left, any) else if any then Clearing else Counting
  }

  /** A failed INCR reports -1, which is within the budget. */
  function AfterCount(cfg: Config, count: int): Push {
    if count <= cfg.pushMaxRetry then Requeueing else DeadLetter
  }

  function ConsumerApply(s: State, c: nat, e: ConsumerEvent): State
    requires ConsumerEnabled(s, c, e)
  {
    var me := ConsumerOf(s, c);
    var ph := me.phase;
    match e
    case Assign(p) =>
      s.(consumers := s.consumers[c := me.(position := me.position[p := CommittedOf(s.kafka, p)])])
    case Restart => s.(consumers := s.consumers[c := Consumer(map[], Ready)])
    case Poll(p) =>
      s.(consumers := s.consumers[c := Consumer(me.position[p := me.position[p] + 1], Polled(p, me.position[p]))])
    case StopAfterPoll => s.(consumers := SetPhase(s, c, Stopped))
    case Dispatch(members) =>
      s.(consumers := SetPhase(s, c,
                               DispatchTo(s, ph.part, ph.offset, LogOf(s.kafka, ph.part)[ph.offset].payload, members)))
    case Reject(ok, index) =>
      s.(kafka := Produce(s.kafka, Dlq, index, ph.payload, ok),
         consumers := SetPhase(s, c, Handled(ph.part, ph.offset, ok)))
    case RefuseUser => s.(consumers := SetPhase(s, c, UserDone(ph.job, false)))
    case Lookup(devices) => s.(consumers := SetPhase(s, c, ph.(push := AfterLookup(devices))))
    case Deliver(ok, reached) =>
      s.(fx := if reached then s.fx.(delivered := s.fx.delivered + {(ph.job.todo[0], ph.job.data)}) else s.fx,
         consumers := SetPhase(s, c, ph.(push := AfterDelivery(ph.push.left - 1, ph.push.any || ok))))
    case ClearRetry(applied) =>
      s.(fx := if applied then s.fx.(retries := s.fx.retries - {(ph.job.data.messageId, ph.job.todo[0])}) else s.fx,
         consumers := SetPhase(s, c, UserDone(ph.job, true)))
    case CountRetry(ok, applied) =>
      var m, u := ph.job.data.messageId, ph.job.todo[0];
      var count := RetryCountOf(s.fx, m, u) + 1;
      s.(fx := if applied then s.fx.(retries := s.fx.retries[(m, u) := count]) else s.fx,
         consumers := SetPhase(s, c, ph.(push := AfterCount(s.cfg, if ok then count else -1))))
    case Requeue(ok, index) =>
      s.(kafka := Produce(s.kafka, Retry, index, Parsed(Scoped(ph.job.todo[0], ph.job.data)), ok),
         consumers := SetPhase(s, c, UserDone(ph.job, ok)))
    case SendDlq(ok, index) =>
      s.(kafka := Produce(s.kafka, Dlq, index, Parsed(Scoped(ph.job.todo[0], ph.job.data)), ok),
         consumers := SetPhase(s, c, ph.(push := SavingAfterDlq(ok))))
    case SaveOffline(ok, applied) =>
      var u := ph.job.todo[0];
      var result := if ph.push.SavingOffline? then ok else ph.push.dlqOk;
      s.(fx := if applied then WriteOffline(s.fx, u, Scoped(u, ph.job.data)) else s.fx,
         consumers := SetPhase(s, c, UserDone(ph.job, result)))
    case Finish =>
      var job := ph.job;
      s.(fx := if job.failed == 0 then s.fx.(served := s.fx.served[(job.part, job.offset) := job.targets]) else s.fx,
         consumers := SetPhase(s, c, Handled(job.part, job.offset, job.failed == 0)))
    case Commit(ok, applied) =>
      s.(kafka := if applied then s.kafka.(committed := s.kafka.committed[ph.part := ph.offset + 1]) else s.kafka,
         consumers := SetPhase(s, c, if ok then Ready else Rewinding(ph.part, ph.offset)))
    case Seek(ok) =>
      if ok then s.(consumers := s.consumers[c := Consumer(me.position[ph.part := ph.offset], Ready)])
      else s.(consumers := SetPhase(s, c, Stopped))
  }

  // ---------------------------------------------------------------- steps and runs

  predicate Enabled(s: State, e: Event) {
    match e
    case OnDb(d) => DbEnabled(s.db, d)
    case OnPublisher(w, p) => PublisherEnabled(s, w, p)
    case OnConsumer(c, k) => ConsumerEnabled(s, c, k)
    case LateAppend(t, payload, _) => (t, payload) in s.kafka.limbo
    case ForeignAppend(_, _) => true
    case ExpireRetry(_, _) => true
    case AckOffline(_, _) => true
  }

  function Apply(s: State, e: Event): State
    requires Enabled(s, e)
  {
    match e
    case OnDb(d) => s.(db := DbApply(s.db, s.kafka.stamp, d))
    case OnPublisher(w, p) => PublisherApply(s, w, p)
    case OnConsumer(c, k) => ConsumerApply(s, c, k)
    case LateAppend(t, payload, index) => s.(kafka := Append(s.kafka, Partition(t, index), payload))
    case ForeignAppend(p, payload) => s.(kafka := Append(s.kafka, p, payload))
    case ExpireRetry(m, u) => s.(fx := s.fx.(retries := s.fx.retries - {(m, u)}))
    case AckOffline(m, u) => s.(fx := MarkAcked(s.fx, u, m))
  }

  /** The events can happen one after the other from `s`. */
  predicate Runs(s: State, es: seq<Event>)
    decreases |es|
  {
    es == [] || (Enabled(s, es[0]) && Runs(Apply(s, es[0]), es[1..]))
  }

  function After(s: State, es: seq<Event>): State
    requires Runs(s, es)
    decreases |es|
  {
    if es == [] then s else After(Apply(s, es[0]), es[1..])
  }
}
