/** Exactly which backlogs drain: those without a record that pushToUser or pushToGroup always refuses. */
module DrainExact {
  import opened PipelineState
  import opened Drain
  import PushSteps

  /** pushToUser refuses user 0 and message 0 outright. */
  predicate Refused(d: Data, u: nat) {
    u == 0 || d.messageId == 0
  }

  /** A record no handler run can succeed on: its group has nobody left, or somebody it is for is
  refused outright. */
  ghost predicate Poison(s: State, p: Partition, payload: Payload) {
    match Route(p.topic, payload)
    case ToDlq => false
    case ToUser(u) => Refused(payload.data, u)
    case ToGroup(g) =>
      || Members(s.db, g).Keys == {}
      || exists u :: u in Members(s.db, g) && !Skipped(s, payload.data, u) && Refused(payload.data, u)
  }

  // ---------------------------------------------------------------- without poison the backlog drains

  function MessageIds(s: State, parts: seq<Partition>): set<nat> {
    set p, i | p in parts && 0 <= i < |LogOf(s.kafka, p)| && LogOf(s.kafka, p)[i].payload.Parsed?
               && LogOf(s.kafka, p)[i].payload.data.messageId != 0 :: LogOf(s.kafka, p)[i].payload.data.messageId
  }

  function Recipients(s: State, parts: seq<Partition>): set<nat> {
    set p, i | p in parts && 0 <= i < |LogOf(s.kafka, p)| && LogOf(s.kafka, p)[i].payload.Parsed?
               && LogOf(s.kafka, p)[i].payload.data.toUser != 0 :: LogOf(s.kafka, p)[i].payload.data.toUser
  }

  function GroupUsers(s: State, parts: seq<Partition>): set<nat> {
    set p, i, u | p in parts && 0 <= i < |LogOf(s.kafka, p)| && LogOf(s.kafka, p)[i].payload.Parsed?
                  && u in Members(s.db, LogOf(s.kafka, p)[i].payload.data.groupId).Keys && u != 0 :: u
  }

  /** A worker that is ready to consume these partitions from where they are committed. */
  ghost predicate AtStart(s: State, c: nat, parts: seq<Partition>) {
    var me := ConsumerOf(s, c);
    && me.phase.Ready?
    && (forall i, j :: 0 <= i < j < |parts| ==> parts[i] != parts[j])
    && (forall p :: p in parts ==> p.topic != Dlq) && (exists p :: p in parts && p.topic == Retry)
    && forall p :: p in parts ==> p in me.position && me.position[p] == CommittedOf(s.kafka, p) <= |LogOf(s.kafka, p)|
  }

  ghost predicate NoPoison(s: State, parts: seq<Partition>) {
    forall p, i :: p in parts && CommittedOf(s.kafka, p) <= i < |LogOf(s.kafka, p)| ==>
      !Poison(s, p, LogOf(s.kafka, p)[i].payload)
  }

  lemma InScope(s: State, z: Scope, p: Partition, i: nat)
    requires p in z.parts && i < |LogOf(s.kafka, p)| && !Poison(s, p, LogOf(s.kafka, p)[i].payload)
    requires forall m :: m in z.messages <==> m in MessageIds(s, z.parts)
    requires forall u :: u in z.users <==> u in Recipients(s, z.parts) + GroupUsers(s, z.parts)
    ensures EntryOk(z, s, p, LogOf(s.kafka, p)[i].payload)
  {
    var payload := LogOf(s.kafka, p)[i].payload;
    var r := Route(p.topic, payload);
    if r.ToGroup? {
      forall u | u in Members(s.db, r.group) && !Skipped(s, payload.data, u) ensures TargetOk(z, payload.data, u) {
        assert !Refused(payload.data, u);
        assert u in GroupUsers(s, z.parts);
      }
    }
  }

  /** Any backlog without poison meets the conditions of the draining theorems, for a suitable scope. */
  lemma DrainStarts(s: State, c: nat, parts: seq<Partition>) returns (z: Scope)
    requires AtStart(s, c, parts) && NoPoison(s, parts)
    ensures z.parts == parts && DrainInv(z, s, c)
  {
    var messages := ListMembers(MessageIds(s, parts));
    var users := ListMembers(Recipients(s, parts) + GroupUsers(s, parts));
    z := Scope(parts, messages, users);
    forall p | p in parts ensures PartOk(z, s, ConsumerOf(s, c), p) {
      forall i | CommittedOf(s.kafka, p) <= i < |LogOf(s.kafka, p)|
        ensures EntryOk(z, s, p, LogOf(s.kafka, p)[i].payload)
      {
        InScope(s, z, p, i);
      }
    }
  }

  // ---------------------------------------------------------------- a poison record blocks its partition

  /** Some user of the job has been refused, or is still to be. */
  predicate WillFail(job: Job) {
    job.failed > 0 || exists u :: u in job.todo && Refused(job.data, u)
  }

  /** The record a phase is about. */
  predicate About(ph: Phase, p: Partition, i: nat) {
    match ph
    case Polled(q, j) => q == p && j == i
    case Rejecting(q, j, _) => q == p && j == i
    case Fanning(job, _) => job.part == p && job.offset == i
    case Handled(q, j, _) => q == p && j == i
    case Rewinding(q, j) => q == p && j == i
    case _ => false
  }

  ghost predicate Blocked(s: State, c: nat, p: Partition, k: nat) {
    && k < |LogOf(s.kafka, p)| && Poison(s, p, LogOf(s.kafka, p)[k].payload) && CommittedOf(s.kafka, p) <= k
    && Held(ConsumerOf(s, c), p, k)
  }

  /** The worker is at or before record `k` of the partition, and cannot commit it. */
  ghost predicate Held(me: Consumer, p: Partition, k: nat) {
    && (p in me.position ==>
          me.position[p] <= k || (me.position[p] == k + 1 && (About(me.phase, p, k) || me.phase.Stopped?)))
    && (forall i: nat :: About(me.phase, p, i) ==> i <= k)
    && (About(me.phase, p, k) ==> Doomed(me.phase))
  }

  /** The record being handled cannot end in a commit. */
  ghost predicate Doomed(ph: Phase) {
    match ph
    case Polled(_, _) => true
    case Handled(_, _, ok) => !ok
    case Fanning(job, push) =>
      WillFail(job) && (push.Looking? || (job.todo != [] && !Refused(job.data, job.todo[0])))
    case _ => false
  }

  lemma PoisonStays(s: State, s': State, p: Partition, k: nat)
    requires s'.cfg == s.cfg && k < |LogOf(s.kafka, p)|
    requires LogOf(s.kafka, p) <= LogOf(s'.kafka, p) && Poison(s, p, LogOf(s.kafka, p)[k].payload)
    requires var r := Route(p.topic, LogOf(s.kafka, p)[k].payload); r.ToGroup? ==>
               Members(s'.db, r.group) == Members(s.db, r.group)
    ensures k < |LogOf(s'.kafka, p)| && Poison(s', p, LogOf(s'.kafka, p)[k].payload)
  {
    assert LogOf(s'.kafka, p)[k] == LogOf(s.kafka, p)[k];
  }

  lemma CallFrame(s: State, c: nat, e: ConsumerEvent, p: Partition)
    requires ConsumerEnabled(s, c, e)
    ensures var s' := ConsumerApply(s, c, e);
            && s'.db == s.db && s'.cfg == s.cfg && LogOf(s.kafka, p) <= LogOf(s'.kafka, p)
            && (!e.Commit? ==> CommittedOf(s'.kafka, p) == CommittedOf(s.kafka, p))
  {
  }

  /** A dispatch of a poison record fails at once, or leaves somebody who will be refused. */
  lemma DispatchDoomed(s: State, c: nat, members: seq<nat>, p: Partition, k: nat)
    requires Blocked(s, c, p, k) && ConsumerEnabled(s, c, Dispatch(members)) && About(ConsumerOf(s, c).phase, p, k)
    ensures Doomed(DispatchTo(s, p, k, LogOf(s.kafka, p)[k].payload, members))
  {
    var payload := LogOf(s.kafka, p)[k].payload;
    var r := Route(p.topic, payload);
    if r.ToGroup? && members != [] {
      assert members[0] in (set u | u in members);
      assert members[0] in Members(s.db, r.group).Keys;
      var u :| u in Members(s.db, r.group) && !Skipped(s, payload.data, u) && Refused(payload.data, u);
      assert u in (set v | v in members);
      PushSteps.FanOutMembers(members, payload.data.fromUser, s.cfg.skipSender, u);
    }
  }

  /** The calls inside the handling of a record. */
  lemma HandlingDoomed(s: State, c: nat, e: ConsumerEvent)
    requires ConsumerEnabled(s, c, e) && ConsumerOf(s, c).phase.Fanning? && Doomed(ConsumerOf(s, c).phase)
    requires !e.Restart? && !e.Assign?
    ensures Doomed(ConsumerOf(ConsumerApply(s, c, e), c).phase)
  {
    var job := ConsumerOf(s, c).phase.job;
    var ph' := ConsumerOf(ConsumerApply(s, c, e), c).phase;
    if ph'.Fanning? && ph'.job.failed == 0 {
      assert job.failed == 0;
      var u :| u in job.todo && Refused(job.data, u);
      if ph'.job.todo != job.todo { assert u in job.todo[1..]; }
    }
  }

  /** Within the handling of a record the worker stays with it. */
  lemma SameRecord(s: State, c: nat, e: ConsumerEvent, p: Partition, i: nat)
    requires ConsumerEnabled(s, c, e) && !e.Assign? && !e.Restart? && !e.Poll? && !e.Seek?
    ensures ConsumerOf(ConsumerApply(s, c, e), c).position == ConsumerOf(s, c).position
    ensures var ph, ph' := ConsumerOf(s, c).phase, ConsumerOf(ConsumerApply(s, c, e), c).phase;
            && (About(ph', p, i) ==> About(ph, p, i))
            && (About(ph, p, i) ==> About(ph', p, i) || ph'.Stopped? || (e.Commit? && ph.ok))
  {
  }

  lemma MoveKeepsBlocked(s: State, c: nat, e: ConsumerEvent, p: Partition, k: nat)
    requires Blocked(s, c, p, k) && ConsumerEnabled(s, c, e) && (e.Assign? || e.Restart? || e.Poll? || e.Seek?)
    ensures Blocked(ConsumerApply(s, c, e), c, p, k)
  {
    CallFrame(s, c, e, p);
    PoisonStays(s, ConsumerApply(s, c, e), p, k);
    var ph := ConsumerOf(s, c).phase;
    if e.Seek? { assert About(ph, ph.part, ph.offset); }
  }

  lemma CallKeepsBlocked(s: State, c: nat, e: ConsumerEvent, p: Partition, k: nat)
    requires Blocked(s, c, p, k) && ConsumerEnabled(s, c, e)
    ensures Blocked(ConsumerApply(s, c, e), c, p, k)
  {
    if e.Assign? || e.Restart? || e.Poll? || e.Seek? {
      MoveKeepsBlocked(s, c, e, p, k);
    } else {
      var s' := ConsumerApply(s, c, e);
      var ph, ph' := ConsumerOf(s, c).phase, ConsumerOf(s', c).phase;
      CallFrame(s, c, e, p);
      PoisonStays(s, s', p, k);
      forall i: nat ensures About(ph', p, i) ==> About(ph, p, i) { SameRecord(s, c, e, p, i); }
      SameRecord(s, c, e, p, k);
      if About(ph, p, k) && About(ph', p, k) { StaysDoomed(s, c, e, p, k); }
      CommitsBelow(s, c, e, p, k);
    }
  }

  lemma StaysDoomed(s: State, c: nat, e: ConsumerEvent, p: Partition, k: nat)
    requires Blocked(s, c, p, k) && ConsumerEnabled(s, c, e) && !e.Assign? && !e.Restart? && !e.Poll? && !e.Seek?
    requires About(ConsumerOf(s, c).phase, p, k)
    ensures var ph' := ConsumerOf(ConsumerApply(s, c, e), c).phase; About(ph', p, k) ==> Doomed(ph')
  {
    var ph := ConsumerOf(s, c).phase;
    if e.Dispatch? { DispatchDoomed(s, c, e.members, p, k); }
    if ph.Fanning? { HandlingDoomed(s, c, e); }
  }

  lemma CommitsBelow(s: State, c: nat, e: ConsumerEvent, p: Partition, k: nat)
    requires Blocked(s, c, p, k) && ConsumerEnabled(s, c, e)
    ensures CommittedOf(ConsumerApply(s, c, e).kafka, p) <= k
  {
    var ph := ConsumerOf(s, c).phase;
    if e.Commit? && ph.part == p { assert About(ph, p, ph.offset); } else { CallFrame(s, c, e, p); }
  }

  ghost predicate Calls(s: State, c: nat, es: seq<ConsumerEvent>)
    decreases |es|
  {
    es == [] || (ConsumerEnabled(s, c, es[0]) && Calls(ConsumerApply(s, c, es[0]), c, es[1..]))
  }

  ghost function AfterAll(s: State, c: nat, es: seq<ConsumerEvent>): State
    requires Calls(s, c, es)
    decreases |es|
  {
    if es == [] then s else AfterAll(ConsumerApply(s, c, es[0]), c, es[1..])
  }

  lemma {:induction false} CallsKeepBlocked(s: State, c: nat, es: seq<ConsumerEvent>, p: Partition, k: nat)
    requires Blocked(s, c, p, k) && Calls(s, c, es)
    ensures Blocked(AfterAll(s, c, es), c, p, k)
    decreases |es|
  {
    if es != [] {
      CallKeepsBlocked(s, c, es[0], p, k);
      CallsKeepBlocked(ConsumerApply(s, c, es[0]), c, es[1..], p, k);
    }
  }

  /** The condition is exact. A poison record in the backlog is never committed, nor anything behind it:
  whatever calls the worker makes, and however they turn out, its partition is not drained. */
  lemma PoisonBlocks(s: State, c: nat, parts: seq<Partition>, p: Partition, k: nat, es: seq<ConsumerEvent>)
    requires AtStart(s, c, parts) && p in parts && CommittedOf(s.kafka, p) <= k < |LogOf(s.kafka, p)|
    requires Poison(s, p, LogOf(s.kafka, p)[k].payload) && Calls(s, c, es)
    ensures CommittedOf(AfterAll(s, c, es).kafka, p) <= k < |LogOf(AfterAll(s, c, es).kafka, p)|
  {
    CallsKeepBlocked(s, c, es, p, k);
  }

  // ---------------------------------------------------------------- whoever else acts

  ghost predicate AllBlocked(s: State, p: Partition, k: nat) {
    && k < |LogOf(s.kafka, p)| && Poison(s, p, LogOf(s.kafka, p)[k].payload) && CommittedOf(s.kafka, p) <= k
    && forall c :: c in s.consumers ==> Held(s.consumers[c], p, k)
  }

  /** The event leaves the membership of the record's group alone. */
  predicate SameGroup(e: Event, p: Partition, payload: Payload) {
    var r := Route(p.topic, payload);
    r.ToGroup? && e.OnDb? && (e.db.CreateGroup? || e.db.Join? || e.db.Leave? || e.db.OwnerLeave?) ==>
          e.db.group != r.group
  }

  lemma PublisherOther(s: State, w: nat, e: PublisherEvent, p: Partition)
    requires PublisherEnabled(s, w, e)
    ensures var s' := PublisherApply(s, w, e);
            && s'.cfg == s.cfg && s'.db.groups == s.db.groups && s'.consumers == s.consumers
            && LogOf(s.kafka, p) <= LogOf(s'.kafka, p) && s'.kafka.committed == s.kafka.committed
  {
  }

  lemma OtherFrame(s: State, e: Event, p: Partition, payload: Payload)
    requires Enabled(s, e) && !e.OnConsumer? && SameGroup(e, p, payload)
    ensures var s' := Apply(s, e);
            && s'.cfg == s.cfg && LogOf(s.kafka, p) <= LogOf(s'.kafka, p) && s'.consumers == s.consumers
            && CommittedOf(s'.kafka, p) == CommittedOf(s.kafka, p)
            && var r := Route(p.topic, payload);
            (r.ToGroup? ==> Members(s'.db, r.group) == Members(s.db, r.group))
  {
    if e.OnPublisher? { PublisherOther(s, e.w, e.pe, p); }
  }

  lemma EventKeepsBlocked(s: State, e: Event, p: Partition, k: nat)
    requires AllBlocked(s, p, k) && Enabled(s, e) && SameGroup(e, p, LogOf(s.kafka, p)[k].payload)
    ensures AllBlocked(Apply(s, e), p, k) && LogOf(Apply(s, e).kafka, p)[k] == LogOf(s.kafka, p)[k]
  {
    var s' := Apply(s, e);
    match e {
      case OnConsumer(c, call) =>
        assert Held(ConsumerOf(s, c), p, k);
        CallKeepsBlocked(s, c, call, p, k);
        CallFrame(s, c, call, p);
        PushSteps.ConsumerFrame(s, c, call);
        forall b | b in s'.consumers ensures Held(s'.consumers[b], p, k) {
          if b != c { assert Held(s.consumers[b], p, k); }
        }
      case _ =>
        OtherFrame(s, e, p, LogOf(s.kafka, p)[k].payload);
        PoisonStays(s, s', p, k);
    }
  }

  lemma {:induction false} RunKeepsBlocked(s: State, es: seq<Event>, p: Partition, k: nat)
    requires AllBlocked(s, p, k) && Runs(s, es) && forall e :: e in es ==> SameGroup(e, p, LogOf(s.kafka, p)[k].payload)
    ensures AllBlocked(After(s, es), p, k)
    decreases |es|
  {
    if es != [] {
      EventKeepsBlocked(s, es[0], p, k);
      RunKeepsBlocked(Apply(s, es[0]), es[1..], p, k);
    }
  }

  /** Nobody has started on record `k` of the partition. */
  ghost predicate Untouched(s: State, p: Partition, k: nat) {
    && CommittedOf(s.kafka, p) <= k < |LogOf(s.kafka, p)|
    && forall c :: c in s.consumers ==>
         && (p in s.consumers[c].position ==> s.consumers[c].position[p] <= k)
         && forall i: nat :: About(s.consumers[c].phase, p, i) ==> i < k
  }

  /** The same whoever acts: from a state in which nobody has started on a poison record, no run of any
  workers, databases, brokers and clients commits it, unless its group's membership changes. */
  lemma PoisonBlocksAll(s: State, es: seq<Event>, p: Partition, k: nat)
    requires Untouched(s, p, k) && Poison(s, p, LogOf(s.kafka, p)[k].payload)
    requires Runs(s, es) && forall e :: e in es ==> SameGroup(e, p, LogOf(s.kafka, p)[k].payload)
    ensures CommittedOf(After(s, es).kafka, p) <= k < |LogOf(After(s, es).kafka, p)|
  {
    RunKeepsBlocked(s, es, p, k);
  }
}
