/** Commit-prefix safety of the push workers: in every run with handler failures, commit failures,
seeks, crashes and restarts, every record below a committed offset is settled. */
module PushSafety {
  import opened PipelineState
  import opened PipelineGrowth

  // ---------------------------------------------------------------- what "settled" means

  predicate Delivered(s: State, u: nat, d: Data) {
    (u, d) in s.fx.delivered || (u, Scoped(u, d)) in s.fx.delivered
  }

  ghost predicate DeadLettered(s: State, u: nat, d: Data) {
    InLog(s.kafka, Dlq, Parsed(Scoped(u, d))) || InLog(s.kafka, Dlq, Parsed(d))
  }

  /** The payload was handed to one of the user's connections, written to the user's offline row,
  or left in the DLQ. */
  ghost predicate Reached(s: State, u: nat, d: Data) {
    Delivered(s, u, d) || (u, Scoped(u, d)) in s.fx.saved || DeadLettered(s, u, d)
  }

  /** Reached, or the user has acknowledged the message: then an insert no longer changes their row. */
  ghost predicate Resolved(s: State, u: nat, d: Data) {
    Reached(s, u, d) || HasAcked(s.fx, u, d.messageId)
  }

  /** Resolved, or queued again for this user after the record stamped `stamp`. */
  ghost predicate UserSettled(s: State, stamp: nat, u: nat, d: Data) {
    Resolved(s, u, d) || InLogAfter(s.kafka, Retry, Parsed(Scoped(u, d)), stamp)
  }

  ghost predicate AllSettled(s: State, stamp: nat, users: set<nat>, d: Data) {
    forall u :: u in users ==> UserSettled(s, stamp, u, d)
  }

  /** Every steady member of the message's group, except a skipped sender, is among `users`. */
  ghost predicate CoversSteady(s: State, stamp: nat, g: nat, d: Data, users: set<nat>) {
    forall u ::
      Steady(s.db, stamp, d.messageId, u) && s.db.messages[d.messageId].data.groupId == g
      && !(s.cfg.skipSender && u == d.fromUser)
      ==> u in users
  }

  ghost predicate EntrySettled(s: State, p: Partition, i: nat, e: Entry) {
    match Route(p.topic, e.payload)
    case ToDlq => InLog(s.kafka, Dlq, e.payload)
    case ToUser(u) => UserSettled(s, e.stamp, u, e.payload.data)
    case ToGroup(g) =>
      && (p, i) in s.fx.served
      && AllSettled(s, e.stamp, s.fx.served[(p, i)], e.payload.data)
      && CoversSteady(s, e.stamp, g, e.payload.data, s.fx.served[(p, i)])
  }

  /** The first `n` records of the partition exist and are settled. */
  ghost predicate PrefixSettled(s: State, p: Partition, n: nat) {
    && n <= |LogOf(s.kafka, p)|
    && forall i :: 0 <= i < n ==> EntrySettled(s, p, i, LogOf(s.kafka, p)[i])
  }

  // ---------------------------------------------------------------- the invariant

  ghost predicate InFlight(s: State, me: Consumer, p: Partition, offset: nat) {
    && p in me.position && me.position[p] == offset + 1
    && offset < |LogOf(s.kafka, p)| && PrefixSettled(s, p, offset)
  }

  /** What has been pushed so far is settled, provided nothing failed. */
  ghost predicate JobInv(s: State, job: Job) {
    && job.offset < |LogOf(s.kafka, job.part)|
    && var e := LogOf(s.kafka, job.part)[job.offset];
    && e.payload == Parsed(job.data)
    && var r := Route(job.part.topic, e.payload);
    && !r.ToDlq?
    && (r.ToUser? ==> job.targets == {r.user})
    && (r.ToGroup? ==> CoversSteady(s, e.stamp, r.group, job.data, job.targets))
    && (forall u :: u in job.todo ==> u in job.targets)
    && (job.failed == 0 ==> forall u :: u in job.targets && u !in job.todo ==> UserSettled(s, e.stamp, u, job.data))
  }

  /** What the push in progress has already achieved for the user at the head of the list. */
  ghost predicate PushInv(s: State, job: Job, push: Push) {
    job.todo != [] ==>
      var u := job.todo[0];
      && (push.Delivering? && push.any ==> (u, job.data) in s.fx.delivered)
      && (push.Delivering? ==> push.left > 0)
      && (push.Clearing? ==> (u, job.data) in s.fx.delivered)
      && (push.SavingAfterDlq? && push.dlqOk ==> InLog(s.kafka, Dlq, Parsed(Scoped(u, job.data))))
  }

  ghost predicate PhaseInv(s: State, me: Consumer) {
    match me.phase
    case Ready => true
    case Stopped => true
    case Polled(p, i) => InFlight(s, me, p, i)
    case Rejecting(p, i, payload) =>
      && InFlight(s, me, p, i)
      && LogOf(s.kafka, p)[i].payload == payload && Route(p.topic, payload).ToDlq?
    case Fanning(job, push) =>
      InFlight(s, me, job.part, job.offset) && JobInv(s, job) && PushInv(s, job, push)
    case Handled(p, i, ok) =>
      InFlight(s, me, p, i) && (ok ==> EntrySettled(s, p, i, LogOf(s.kafka, p)[i]))
    case Rewinding(p, i) => InFlight(s, me, p, i)
  }

  /** The partition a phase is working on. */
  predicate Busy(ph: Phase, p: Partition) {
    match ph
    case Ready => false
    case Stopped => false
    case Fanning(job, _) => job.part == p
    case _ => ph.part == p
  }

  /** Everything below the position is settled, except the record in flight; a stopped worker
  claims nothing, since it never commits again. */
  ghost predicate ConsumerInv(s: State, me: Consumer) {
    && PhaseInv(s, me)
    && (!me.phase.Stopped? ==>
          forall p :: p in me.position && !Busy(me.phase, p) ==> PrefixSettled(s, p, me.position[p]))
  }

  ghost predicate CommittedInv(s: State) {
    forall p :: p in s.kafka.committed ==> PrefixSettled(s, p, s.kafka.committed[p])
  }

  ghost predicate ConsumersInv(s: State) {
    forall c :: c in s.consumers ==> ConsumerInv(s, s.consumers[c])
  }

  /** Whoever was served is settled, and no steady member was left out. */
  ghost predicate ServedWell(s: State, p: Partition, i: nat, users: set<nat>) {
    && i < |LogOf(s.kafka, p)|
    && var e := LogOf(s.kafka, p)[i];
    && e.payload.Parsed?
    && AllSettled(s, e.stamp, users, e.payload.data)
    && var r := Route(p.topic, e.payload);
    (r.ToGroup? ==> CoversSteady(s, e.stamp, r.group, e.payload.data, users))
  }

  ghost predicate ServedInv(s: State) {
    forall p, i: nat :: (p, i) in s.fx.served ==> ServedWell(s, p, i, s.fx.served[(p, i)])
  }

  ghost predicate PushInvariant(s: State) {
    BaseInv(s) && CommittedInv(s) && ConsumersInv(s) && ServedInv(s)
  }

  // ---------------------------------------------------------------- settled stays settled

  lemma LogOfGrows(k: Kafka, k': Kafka, p: Partition)
    requires LogsGrow(k, k')
    ensures LogOf(k, p) <= LogOf(k', p)
  {
  }

  lemma ResolvedStays(s: State, s': State, u: nat, d: Data)
    requires Grows(s, s') && Resolved(s, u, d)
    ensures Resolved(s', u, d)
  {
    if InLog(s.kafka, Dlq, Parsed(Scoped(u, d))) { InLogStays(s.kafka, s'.kafka, Dlq, Parsed(Scoped(u, d)), -1); }
    if InLog(s.kafka, Dlq, Parsed(d)) { InLogStays(s.kafka, s'.kafka, Dlq, Parsed(d), -1); }
  }

  lemma UserSettledStays(s: State, s': State, stamp: nat, u: nat, d: Data)
    requires Grows(s, s') && UserSettled(s, stamp, u, d)
    ensures UserSettled(s', stamp, u, d)
  {
    if Resolved(s, u, d) {
      ResolvedStays(s, s', u, d);
    } else {
      InLogStays(s.kafka, s'.kafka, Retry, Parsed(Scoped(u, d)), stamp);
    }
  }

  lemma AllSettledStays(s: State, s': State, stamp: nat, users: set<nat>, d: Data)
    requires Grows(s, s') && AllSettled(s, stamp, users, d)
    ensures AllSettled(s', stamp, users, d)
  {
    forall u | u in users ensures UserSettled(s', stamp, u, d) { UserSettledStays(s, s', stamp, u, d); }
  }

  lemma CoversSteadyStays(s: State, s': State, stamp: nat, g: nat, d: Data, users: set<nat>)
    requires Grows(s, s') && stamp < s.kafka.stamp && CoversSteady(s, stamp, g, d, users)
    ensures CoversSteady(s', stamp, g, d, users)
  {
    forall u | Steady(s'.db, stamp, d.messageId, u) && s'.db.messages[d.messageId].data.groupId == g
               && !(s'.cfg.skipSender && u == d.fromUser)
      ensures u in users
    {
      assert Steady(s.db, stamp, d.messageId, u);
    }
  }

  /** A record settled before stays settled, as long as the record of who was served is kept or
  replaced by an equally good one. */
  lemma EntrySettledStays(s: State, s': State, p: Partition, i: nat)
    requires Grows(s, s') && BaseInv(s) && ServedInv(s')
    requires i < |LogOf(s.kafka, p)| && EntrySettled(s, p, i, LogOf(s.kafka, p)[i])
    ensures i < |LogOf(s'.kafka, p)| && LogOf(s'.kafka, p)[i] == LogOf(s.kafka, p)[i]
    ensures EntrySettled(s', p, i, LogOf(s'.kafka, p)[i])
  {
    LogOfGrows(s.kafka, s'.kafka, p);
    var e := LogOf(s.kafka, p)[i];
    match Route(p.topic, e.payload)
    case ToDlq => InLogStays(s.kafka, s'.kafka, Dlq, e.payload, -1);
    case ToUser(u) => UserSettledStays(s, s', e.stamp, u, e.payload.data);
    case ToGroup(g) => assert ServedWell(s', p, i, s'.fx.served[(p, i)]);
  }

  lemma PrefixSettledStays(s: State, s': State, p: Partition, n: nat)
    requires Grows(s, s') && BaseInv(s) && ServedInv(s') && PrefixSettled(s, p, n)
    ensures PrefixSettled(s', p, n)
  {
    LogOfGrows(s.kafka, s'.kafka, p);
    forall i | 0 <= i < n ensures EntrySettled(s', p, i, LogOf(s'.kafka, p)[i]) {
      EntrySettledStays(s, s', p, i);
    }
  }

  lemma StampAt(k: Kafka, p: Partition, i: nat)
    requires StampsBelow(k) && i < |LogOf(k, p)|
    ensures LogOf(k, p)[i].stamp < k.stamp
  {
  }

  // ---------------------------------------------------------------- workers an event leaves alone

  lemma JobInvStays(s: State, s': State, job: Job)
    requires Grows(s, s') && BaseInv(s) && JobInv(s, job)
    ensures JobInv(s', job)
  {
    LogOfGrows(s.kafka, s'.kafka, job.part);
    StampAt(s.kafka, job.part, job.offset);
    var e := LogOf(s.kafka, job.part)[job.offset];
    var r := Route(job.part.topic, e.payload);
    if r.ToGroup? { CoversSteadyStays(s, s', e.stamp, r.group, job.data, job.targets); }
    if job.failed == 0 {
      forall u | u in job.targets && u !in job.todo ensures UserSettled(s', e.stamp, u, job.data) {
        UserSettledStays(s, s', e.stamp, u, job.data);
      }
    }
  }

  lemma PushInvStays(s: State, s': State, job: Job, push: Push)
    requires Grows(s, s') && PushInv(s, job, push)
    ensures PushInv(s', job, push)
  {
    if job.todo != [] && push.SavingAfterDlq? && push.dlqOk {
      InLogStays(s.kafka, s'.kafka, Dlq, Parsed(Scoped(job.todo[0], job.data)), -1);
    }
  }

  lemma InFlightStays(s: State, s': State, me: Consumer, p: Partition, i: nat)
    requires Grows(s, s') && BaseInv(s) && ServedInv(s') && InFlight(s, me, p, i)
    ensures InFlight(s', me, p, i)
  {
    LogOfGrows(s.kafka, s'.kafka, p);
    PrefixSettledStays(s, s', p, i);
  }

  lemma PhaseInvStays(s: State, s': State, me: Consumer)
    requires Grows(s, s') && BaseInv(s) && ServedInv(s') && PhaseInv(s, me)
    ensures PhaseInv(s', me)
  {
    match me.phase
    case Ready =>
    case Stopped =>
    case Polled(p, i) => InFlightStays(s, s', me, p, i);
    case Rejecting(p, i, _) =>
      InFlightStays(s, s', me, p, i);
      LogOfGrows(s.kafka, s'.kafka, p);
    case Fanning(job, push) =>
      InFlightStays(s, s', me, job.part, job.offset);
      JobInvStays(s, s', job);
      PushInvStays(s, s', job, push);
    case Handled(p, i, ok) =>
      InFlightStays(s, s', me, p, i);
      if ok { EntrySettledStays(s, s', p, i); }
    case Rewinding(p, i) => InFlightStays(s, s', me, p, i);
  }

  lemma PositionsStay(s: State, s': State, me: Consumer, me': Consumer)
    requires Grows(s, s') && BaseInv(s) && ServedInv(s') && ConsumerInv(s, me) && !me.phase.Stopped?
    requires forall p :: p in me'.position && !Busy(me'.phase, p) ==>
               (p in me.position && me'.position[p] == me.position[p] && !Busy(me.phase, p))
    ensures forall p :: p in me'.position && !Busy(me'.phase, p) ==> PrefixSettled(s', p, me'.position[p])
  {
    forall p | p in me'.position && !Busy(me'.phase, p) ensures PrefixSettled(s', p, me'.position[p]) {
      PrefixSettledStays(s, s', p, me.position[p]);
    }
  }

  lemma BystanderKeeps(s: State, s': State, me: Consumer)
    requires Grows(s, s') && BaseInv(s) && ServedInv(s') && ConsumerInv(s, me)
    ensures ConsumerInv(s', me)
  {
    PhaseInvStays(s, s', me);
    if !me.phase.Stopped? { PositionsStay(s, s', me, me); }
  }

  lemma CommittedStays(s: State, s': State)
    requires Grows(s, s') && BaseInv(s) && ServedInv(s') && CommittedInv(s) && s'.kafka.committed == s.kafka.committed
    ensures CommittedInv(s')
  {
    forall p | p in s'.kafka.committed ensures PrefixSettled(s', p, s'.kafka.committed[p]) {
      PrefixSettledStays(s, s', p, s.kafka.committed[p]);
    }
  }

  lemma ServedWellStays(s: State, s': State, p: Partition, i: nat, users: set<nat>)
    requires Grows(s, s') && BaseInv(s) && ServedWell(s, p, i, users)
    ensures ServedWell(s', p, i, users)
  {
    LogOfGrows(s.kafka, s'.kafka, p);
    StampAt(s.kafka, p, i);
    var e := LogOf(s.kafka, p)[i];
    AllSettledStays(s, s', e.stamp, users, e.payload.data);
    var r := Route(p.topic, e.payload);
    if r.ToGroup? { CoversSteadyStays(s, s', e.stamp, r.group, e.payload.data, users); }
  }

  lemma ServedStays(s: State, s': State)
    requires Grows(s, s') && BaseInv(s) && ServedInv(s) && s'.fx.served == s.fx.served
    ensures ServedInv(s')
  {
    forall p, i: nat | (p, i) in s'.fx.served ensures ServedWell(s', p, i, s'.fx.served[(p, i)]) {
      ServedWellStays(s, s', p, i, s.fx.served[(p, i)]);
    }
  }
}
