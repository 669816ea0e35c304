/** Draining: while Kafka, Redis and MySQL calls succeed and retry keys do not expire, a worker
consumes any finite backlog in finitely many calls, whoever is online and whatever the gateways
answer. Undelivered messages come back on the retry topic, so the backlog does not simply shrink;
a lexicographic measure over six counts does. */
module Drain {
  import opened PipelineState

  /** Which partitions are consumed, and which message and user ids the backlog can mention. */
  datatype Scope = Scope(parts: seq<Partition>, messages: seq<nat>, users: seq<nat>)

  ghost predicate ScopeOk(z: Scope) {
    && (forall i, j :: 0 <= i < j < |z.parts| ==> z.parts[i] != z.parts[j])
    && (forall p :: p in z.parts ==> p.topic != Dlq) && (exists p :: p in z.parts && p.topic == Retry)
    && 0 !in z.messages && 0 !in z.users
  }

  /** A record that only one user is left to receive. */
  predicate IsRetryUnit(p: Partition, payload: Payload) {
    p.topic == Retry && Route(p.topic, payload).ToUser?
  }

  ghost predicate EntryOk(z: Scope, s: State, p: Partition, payload: Payload) {
    match Route(p.topic, payload)
    case ToDlq => true
    case ToUser(u) => payload.data.messageId in z.messages && u in z.users
    case ToGroup(g) =>
      && Members(s.db, g).Keys != {}
      && forall u :: u in Members(s.db, g) ==> Skipped(s, payload.data, u) || TargetOk(z, payload.data, u)
  }

  /** pushToGroup passes over the sender when configured to. */
  predicate Skipped(s: State, d: Data, u: nat) {
    s.cfg.skipSender && u == d.fromUser
  }

  ghost predicate TargetOk(z: Scope, d: Data, u: nat) {
    u in z.users && d.messageId in z.messages && (d.toUser == 0 || d.toUser in z.users)
  }

  ghost predicate JobOk(z: Scope, job: Job, payload: Payload) {
    && payload == Parsed(job.data)
    && job.failed == 0 && (forall u :: u in job.todo ==> TargetOk(z, job.data, u))
    && (IsRetryUnit(job.part, payload) ==> |job.todo| <= 1)
  }

  ghost predicate PushOk(push: Push) {
    && (push.Delivering? ==> push.left > 0)
    && (push.SavingAfterDlq? ==> push.dlqOk)
  }

  ghost predicate Current(z: Scope, s: State, me: Consumer, p: Partition, i: nat) {
    p in z.parts && p in me.position && me.position[p] == i + 1 && i < |LogOf(s.kafka, p)| &&
        CommittedOf(s.kafka, p) == i
  }

  ghost predicate PhaseOk(z: Scope, s: State, me: Consumer) {
    match me.phase
    case Ready => true
    case Polled(p, i) => Current(z, s, me, p, i)
    case Rejecting(p, i, payload) => Current(z, s, me, p, i)
    case Fanning(job, push) =>
      && Current(z, s, me, job.part, job.offset)
      && JobOk(z, job, LogOf(s.kafka, job.part)[job.offset].payload) && PushOk(push)
    case Handled(p, i, ok) => ok && Current(z, s, me, p, i)
    case _ => false
  }

  predicate AtWork(ph: Phase, p: Partition) {
    match ph
    case Polled(q, _) => p == q
    case Rejecting(q, _, _) => p == q
    case Fanning(job, _) => p == job.part
    case Handled(q, _, _) => p == q
    case _ => false
  }

  ghost predicate PartOk(z: Scope, s: State, me: Consumer, p: Partition) {
    && p in me.position && me.position[p] <= |LogOf(s.kafka, p)|
    && (!AtWork(me.phase, p) ==> me.position[p] == CommittedOf(s.kafka, p))
    && forall i :: CommittedOf(s.kafka, p) <= i < |LogOf(s.kafka, p)| ==> EntryOk(z, s, p, LogOf(s.kafka, p)[i].payload)
  }

  /** Worker `c` owns all partitions of the scope, starting from the committed offsets. */
  ghost predicate DrainInv(z: Scope, s: State, c: nat) {
    var me := ConsumerOf(s, c);
    && ScopeOk(z)
    && (forall p :: p in z.parts ==> PartOk(z, s, me, p))
    && PhaseOk(z, s, me)
  }

  /** The calls of a worker whose every call succeeds. What a gateway answers, how many devices
  are online, and who belongs to a group stay arbitrary. */
  ghost predicate Healthy(z: Scope, s: State, c: nat, e: ConsumerEvent) {
    && ConsumerEnabled(s, c, e)
    && match e
       case Poll(p) => p in z.parts
       case Dispatch(members) =>
         var ph := ConsumerOf(s, c).phase;
         Route(ph.part.topic, LogOf(s.kafka, ph.part)[ph.offset].payload).ToGroup? ==> members != []
       case Reject(ok, index) => ok
       case Lookup(_) => true
       case Deliver(_, _) => true
       case ClearRetry(applied) => applied
       case CountRetry(ok, _) => ok
       case Requeue(ok, index) => ok && Partition(Retry, index) in z.parts
       case SendDlq(ok, _) => ok
       case SaveOffline(ok, _) => ok
       case Finish => true
       case Commit(ok, _) => ok
       case _ => false
  }

  // ---------------------------------------------------------------- the measure

  function CountMain(p: Partition, tail: seq<Entry>): nat {
    if tail == [] then 0
    else CountMain(p, tail[..|tail| - 1]) + (if IsRetryUnit(p, tail[|tail| - 1].payload) then 0 else 1)
  }

  function Unread(s: State, me: Consumer, p: Partition): seq<Entry> {
    if p in me.position && me.position[p] <= |LogOf(s.kafka, p)| then LogOf(s.kafka, p)[me.position[p]..] else []
  }

  function MainLeft(s: State, me: Consumer, parts: seq<Partition>): nat {
    if parts == [] then 0 else CountMain(parts[0], Unread(s, me, parts[0])) + MainLeft(s, me, parts[1..])
  }

  function RetryLeft(s: State, me: Consumer, parts: seq<Partition>): nat {
    if parts == [] then 0
    else RetryCountIn(parts[0], Unread(s, me, parts[0])) + RetryLeft(s, me, parts[1..])
  }

  function RetryCountIn(p: Partition, tail: seq<Entry>): nat {
    if tail == [] then 0
    else RetryCountIn(p, tail[..|tail| - 1]) + (if IsRetryUnit(p, tail[|tail| - 1].payload) then 1 else 0)
  }

  function PolledPayload(s: State, ph: Phase): Payload {
    if ph.Polled? && ph.offset < |LogOf(s.kafka, ph.part)| then LogOf(s.kafka, ph.part)[ph.offset].payload
    else if ph.Fanning? then Parsed(ph.job.data) else Malformed("")
  }

  predicate OnMain(s: State, ph: Phase) {
    (ph.Polled? && !IsRetryUnit(ph.part, PolledPayload(s, ph)))
    || (ph.Fanning? && !IsRetryUnit(ph.job.part, PolledPayload(s, ph)))
  }

  predicate OnRetry(s: State, ph: Phase) {
    (ph.Polled? && IsRetryUnit(ph.part, PolledPayload(s, ph)))
    || (ph.Fanning? && IsRetryUnit(ph.job.part, PolledPayload(s, ph)) && ph.job.todo != [])
  }

  /** Retries a user may still get for a message before the DLQ. */
  function Remaining(s: State, m: nat, u: nat): nat {
    var n := RetryCountOf(s.fx, m, u);
    if n >= s.cfg.pushMaxRetry then 0 else s.cfg.pushMaxRetry - n
  }

  function BudgetOf(s: State, m: nat, users: seq<nat>): nat {
    if users == [] then 0 else Remaining(s, m, users[0]) + BudgetOf(s, m, users[1..])
  }

  function Budget(s: State, messages: seq<nat>, users: seq<nat>): nat {
    if messages == [] then 0 else BudgetOf(s, messages[0], users) + Budget(s, messages[1..], users)
  }

  /** How far a record is from its next retry count. */
  function Rank(ph: Phase): nat {
    match ph
    case Fanning(job, push) =>
      if job.todo == [] then 11
      else (match push
        case Requeueing => 12
        case Looking => 6
        case Delivering(_, _) => 5
        case SavingOffline => 5
        case Clearing => 4
        case Counting => 4
        case DeadLetter => 3
        case SavingAfterDlq(_) => 2)
    case Rejecting(_, _, _) => 10
    case Handled(_, _, _) => 9
    case Ready => 8
    case Polled(_, _) => 7
    case _ => 0
  }

  datatype Measure = Measure(main: nat, mainTodo: nat, retry: nat, budget: nat, rank: nat, left: nat)

  function MeasureOf(z: Scope, s: State, c: nat): Measure {
    var me := ConsumerOf(s, c);
    var ph := me.phase;
    Measure(MainLeft(s, me, z.parts) + (if ph.Polled? && OnMain(s, ph) then 1 else 0),
            if ph.Fanning? && OnMain(s, ph) then |ph.job.todo| else 0,
            RetryLeft(s, me, z.parts) + (if OnRetry(s, ph) then 1 else 0),
            Budget(s, z.messages, z.users),
            Rank(ph),
            if ph.Fanning? && ph.push.Delivering? then ph.push.left else 0)
  }

  predicate Less(a: Measure, b: Measure) {
    || a.main < b.main
    || (a.main == b.main && (
          || a.mainTodo < b.mainTodo
          || (a.mainTodo == b.mainTodo && (
                || a.retry < b.retry
                || (a.retry == b.retry && (
                      || a.budget < b.budget
                      || (a.budget == b.budget && (a.rank < b.rank || (a.rank == b.rank && a.left < b.left)))))))))
  }

  // ---------------------------------------------------------------- counting lemmas

  lemma {:induction false} CountFirst(p: Partition, tail: seq<Entry>)
    requires tail != []
    ensures CountMain(p, tail) == (if IsRetryUnit(p, tail[0].payload) then 0 else 1) + CountMain(p, tail[1..])
    ensures RetryCountIn(p, tail) == (if IsRetryUnit(p, tail[0].payload) then 1 else 0) + RetryCountIn(p, tail[1..])
    decreases |tail|
  {
    var n := |tail| - 1;
    if n > 0 {
      CountFirst(p, tail[..n]);
      assert tail[..n][1..] == tail[1..][..n - 1];
    }
  }

  lemma CountLast(p: Partition, tail: seq<Entry>, e: Entry)
    ensures CountMain(p, tail + [e]) == CountMain(p, tail) + (if IsRetryUnit(p, e.payload) then 0 else 1)
    ensures RetryCountIn(p, tail + [e]) == RetryCountIn(p, tail) + (if IsRetryUnit(p, e.payload) then 1 else 0)
  {
    assert (tail + [e])[..|tail|] == tail;
  }

  lemma {:induction false} LeftSame(s: State, me: Consumer, s': State, me': Consumer, parts: seq<Partition>)
    requires forall p :: p in parts ==> Unread(s', me', p) == Unread(s, me, p)
    ensures MainLeft(s', me', parts) == MainLeft(s, me, parts)
    ensures RetryLeft(s', me', parts) == RetryLeft(s, me, parts)
  {
    if parts != [] { LeftSame(s, me, s', me', parts[1..]); }
  }

  /** The backlog changes in one partition only. */
  lemma {:induction false} LeftChange(s: State, me: Consumer, s': State, me': Consumer, parts: seq<Partition>,
                                      q: Partition)
    requires q in parts && forall i, j :: 0 <= i < j < |parts| ==> parts[i] != parts[j]
    requires forall p :: p in parts && p != q ==> Unread(s', me', p) == Unread(s, me, p)
    ensures MainLeft(s', me', parts) - CountMain(q, Unread(s', me', q))
            == MainLeft(s, me, parts) - CountMain(q, Unread(s, me, q))
    ensures RetryLeft(s', me', parts) - RetryCountIn(q, Unread(s', me', q))
            == RetryLeft(s, me, parts) - RetryCountIn(q, Unread(s, me, q))
  {
    if parts[0] == q {
      assert forall p :: p in parts[1..] ==> p != q;
      LeftSame(s, me, s', me', parts[1..]);
    } else {
      LeftChange(s, me, s', me', parts[1..], q);
    }
  }

  lemma {:induction false} BudgetOfSame(s: State, s': State, m: nat, users: seq<nat>)
    requires forall u :: u in users ==> Remaining(s', m, u) <= Remaining(s, m, u)
    ensures BudgetOf(s', m, users) <= BudgetOf(s, m, users)
  {
    if users != [] { BudgetOfSame(s, s', m, users[1..]); }
  }

  lemma {:induction false} BudgetOfDrops(s: State, s': State, m: nat, users: seq<nat>, u: nat)
    requires forall v :: v in users ==> Remaining(s', m, v) <= Remaining(s, m, v)
    requires u in users && Remaining(s', m, u) < Remaining(s, m, u)
    ensures BudgetOf(s', m, users) < BudgetOf(s, m, users)
  {
    if users[0] == u { BudgetOfSame(s, s', m, users[1..]); } else { BudgetOfDrops(s, s', m, users[1..], u); }
  }

  lemma {:induction false} BudgetSame(s: State, s': State, messages: seq<nat>, users: seq<nat>)
    requires forall m, u :: Remaining(s', m, u) <= Remaining(s, m, u)
    ensures Budget(s', messages, users) <= Budget(s, messages, users)
  {
    if messages != [] {
      BudgetOfSame(s, s', messages[0], users);
      BudgetSame(s, s', messages[1..], users);
    }
  }

  lemma {:induction false} BudgetDrops(s: State, s': State, messages: seq<nat>, users: seq<nat>, m: nat, u: nat)
    requires forall m, u :: Remaining(s', m, u) <= Remaining(s, m, u)
    requires m in messages && u in users && Remaining(s', m, u) < Remaining(s, m, u)
    ensures Budget(s', messages, users) < Budget(s, messages, users)
  {
    if messages[0] == m {
      BudgetOfDrops(s, s', m, users, u);
      BudgetSame(s, s', messages[1..], users);
    } else {
      BudgetOfSame(s, s', messages[0], users);
      BudgetDrops(s, s', messages[1..], users, m, u);
    }
  }

  // ---------------------------------------------------------------- every call keeps the invariant

  /** Logs of the consumed partitions, memberships and positions stay as they are. */
  ghost predicate SameBacklog(z: Scope, s: State, me: Consumer, s': State, me': Consumer) {
    && s'.cfg == s.cfg && s'.db == s.db && me'.position == me.position
    && forall p :: p in z.parts ==> LogOf(s'.kafka, p) == LogOf(s.kafka, p)
  }

  lemma BacklogSame(z: Scope, s: State, me: Consumer, s': State, me': Consumer)
    requires SameBacklog(z, s, me, s', me')
    ensures MainLeft(s', me', z.parts) == MainLeft(s, me, z.parts)
    ensures RetryLeft(s', me', z.parts) == RetryLeft(s, me, z.parts)
  {
    LeftSame(s, me, s', me', z.parts);
  }

  lemma BudgetKept(s: State, s': State, z: Scope)
    requires s'.cfg == s.cfg && s'.fx.retries == s.fx.retries
    ensures Budget(s', z.messages, z.users) == Budget(s, z.messages, z.users)
  {
    assert forall m, u :: Remaining(s', m, u) == Remaining(s, m, u);
    BudgetSame(s, s', z.messages, z.users);
    BudgetSame(s', s, z.messages, z.users);
  }

  lemma InvKept(z: Scope, s: State, c: nat, s': State)
    requires DrainInv(z, s, c)
    requires var me, me' := ConsumerOf(s, c), ConsumerOf(s', c);
             && SameBacklog(z, s, me, s', me') && PhaseOk(z, s', me')
             && (forall p :: p in z.parts ==> CommittedOf(s'.kafka, p) == CommittedOf(s.kafka, p))
             && (forall p :: AtWork(me.phase, p) ==> AtWork(me'.phase, p))
    ensures DrainInv(z, s', c)
  {
    var me, me' := ConsumerOf(s, c), ConsumerOf(s', c);
    forall p | p in z.parts ensures PartOk(z, s', me', p) {
      assert PartOk(z, s, me, p);
      forall i | CommittedOf(s'.kafka, p) <= i < |LogOf(s'.kafka, p)|
        ensures EntryOk(z, s', p, LogOf(s'.kafka, p)[i].payload)
      {
        assert EntryOk(z, s, p, LogOf(s.kafka, p)[i].payload);
      }
    }
  }

  lemma PollDrains(z: Scope, s: State, c: nat, q: Partition)
    requires DrainInv(z, s, c) && Healthy(z, s, c, Poll(q))
    ensures var s' := ConsumerApply(s, c, Poll(q)); DrainInv(z, s', c) && Less(MeasureOf(z, s', c), MeasureOf(z, s, c))
  {
    var s' := ConsumerApply(s, c, Poll(q));
    var me, me' := ConsumerOf(s, c), ConsumerOf(s', c);
    assert PartOk(z, s, me, q);
    forall p | p in z.parts ensures PartOk(z, s', me', p) {
      assert PartOk(z, s, me, p);
      forall i | CommittedOf(s'.kafka, p) <= i < |LogOf(s'.kafka, p)|
        ensures EntryOk(z, s', p, LogOf(s'.kafka, p)[i].payload)
      {
        assert EntryOk(z, s, p, LogOf(s.kafka, p)[i].payload);
      }
    }
    var tail := Unread(s, me, q);
    assert Unread(s', me', q) == tail[1..];
    CountFirst(q, tail);
    LeftChange(s, me, s', me', z.parts, q);
    BudgetKept(s, s', z);
  }

  lemma FanOutSubset(members: seq<nat>, sender: nat, skip: bool)
    ensures forall u :: u in FanOut(members, sender, skip) ==> u in members && !(skip && u == sender)
  {
  }

  lemma DispatchDrains(z: Scope, s: State, c: nat, members: seq<nat>)
    requires DrainInv(z, s, c) && Healthy(z, s, c, Dispatch(members))
    ensures var s' := ConsumerApply(s, c, Dispatch(members));
            DrainInv(z, s', c) && Less(MeasureOf(z, s', c), MeasureOf(z, s, c))
  {
    var s' := ConsumerApply(s, c, Dispatch(members));
    var me, me' := ConsumerOf(s, c), ConsumerOf(s', c);
    var p, i := me.phase.part, me.phase.offset;
    var payload := LogOf(s.kafka, p)[i].payload;
    assert PartOk(z, s, me, p) && EntryOk(z, s, p, payload);
    var r := Route(p.topic, payload);
    if r.ToGroup? {
      FanOutSubset(members, payload.data.fromUser, s.cfg.skipSender);
      assert forall u :: u in members ==> u in Members(s.db, r.group).Keys;
    }
    InvKept(z, s, c, s');
    BacklogSame(z, s, me, s', me');
    BudgetKept(s, s', z);
  }

  /** The calls inside pushToUser that touch neither the consumed logs nor the retry counters. */
  lemma PushCallFrame(z: Scope, s: State, c: nat, e: ConsumerEvent)
    requires DrainInv(z, s, c) && Healthy(z, s, c, e) && (e.Lookup? || e.Deliver? || e.SendDlq?)
    ensures var s' := ConsumerApply(s, c, e);
            var me, me' := ConsumerOf(s, c), ConsumerOf(s', c);
            && SameBacklog(z, s, me, s', me') && s'.fx.retries == s.fx.retries
            && s'.kafka.committed == s.kafka.committed
            && me'.phase.Fanning? && me'.phase.job == me.phase.job && PushOk(me'.phase.push)
            && (Rank(me'.phase) < Rank(me.phase)
                || (me'.phase.push.Delivering? && me.phase.push.Delivering? &&
                    me'.phase.push.left < me.phase.push.left))
  {
  }

  lemma PushCallDrains(z: Scope, s: State, c: nat, e: ConsumerEvent)
    requires DrainInv(z, s, c) && Healthy(z, s, c, e) && (e.Lookup? || e.Deliver? || e.SendDlq?)
    ensures var s' := ConsumerApply(s, c, e); DrainInv(z, s', c) && Less(MeasureOf(z, s', c), MeasureOf(z, s, c))
  {
    PushCallFrame(z, s, c, e);
    SameJobDrains(z, s, c, ConsumerApply(s, c, e));
  }

  lemma SameJobDrains(z: Scope, s: State, c: nat, s': State)
    requires DrainInv(z, s, c)
    requires var me, me' := ConsumerOf(s, c), ConsumerOf(s', c);
             && SameBacklog(z, s, me, s', me') && s'.fx.retries == s.fx.retries
             && s'.kafka.committed == s.kafka.committed
             && me.phase.Fanning? && me'.phase.Fanning? && me'.phase.job == me.phase.job && PushOk(me'.phase.push)
             && (Rank(me'.phase) < Rank(me.phase)
                 || (me'.phase.push.Delivering? && me.phase.push.Delivering? &&
                     me'.phase.push.left < me.phase.push.left))
    ensures DrainInv(z, s', c) && Less(MeasureOf(z, s', c), MeasureOf(z, s, c))
  {
    InvKept(z, s, c, s');
    BacklogSame(z, s, ConsumerOf(s, c), s', ConsumerOf(s', c));
    BudgetKept(s, s', z);
  }

  /** The calls that end the handling of a record. */
  lemma RecordCallDrains(z: Scope, s: State, c: nat, e: ConsumerEvent)
    requires DrainInv(z, s, c) && Healthy(z, s, c, e) && (e.Reject? || e.Finish?)
    ensures var s' := ConsumerApply(s, c, e); DrainInv(z, s', c) && Less(MeasureOf(z, s', c), MeasureOf(z, s, c))
  {
    var s' := ConsumerApply(s, c, e);
    var me, me' := ConsumerOf(s, c), ConsumerOf(s', c);
    InvKept(z, s, c, s');
    BacklogSame(z, s, me, s', me');
    BudgetKept(s, s', z);
  }

  /** pushToUser returned true: one user fewer to serve. */
  lemma UserReturnDrains(z: Scope, s: State, c: nat, e: ConsumerEvent)
    requires DrainInv(z, s, c) && Healthy(z, s, c, e) && (e.ClearRetry? || e.SaveOffline?)
    ensures var s' := ConsumerApply(s, c, e); DrainInv(z, s', c) && Less(MeasureOf(z, s', c), MeasureOf(z, s, c))
  {
    var s' := ConsumerApply(s, c, e);
    var me, me' := ConsumerOf(s, c), ConsumerOf(s', c);
    InvKept(z, s, c, s');
    BacklogSame(z, s, me, s', me');
  }

  lemma CountBudget(z: Scope, s: State, c: nat, e: ConsumerEvent)
    requires DrainInv(z, s, c) && Healthy(z, s, c, e) && e.CountRetry?
    ensures var s' := ConsumerApply(s, c, e);
            var push' := ConsumerOf(s', c).phase.push;
            if push' == Requeueing then Budget(s', z.messages, z.users) < Budget(s, z.messages, z.users)
            else push' == DeadLetter && Budget(s', z.messages, z.users) <= Budget(s, z.messages, z.users)
  {
    var s' := ConsumerApply(s, c, e);
    var job := ConsumerOf(s, c).phase.job;
    var m, u := job.data.messageId, job.todo[0];
    assert TargetOk(z, job.data, u);
    assert forall n, v :: Remaining(s', n, v) <= Remaining(s, n, v);
    if RetryCountOf(s.fx, m, u) < s.cfg.pushMaxRetry {
      BudgetDrops(s, s', z.messages, z.users, m, u);
    } else {
      BudgetSame(s, s', z.messages, z.users);
    }
  }

  lemma CountDrains(z: Scope, s: State, c: nat, e: ConsumerEvent)
    requires DrainInv(z, s, c) && Healthy(z, s, c, e) && e.CountRetry?
    ensures var s' := ConsumerApply(s, c, e); DrainInv(z, s', c) && Less(MeasureOf(z, s', c), MeasureOf(z, s, c))
  {
    var s' := ConsumerApply(s, c, e);
    InvKept(z, s, c, s');
    BacklogSame(z, s, ConsumerOf(s, c), s', ConsumerOf(s', c));
    CountBudget(z, s, c, e);
  }

  /** What is queued for retry is for one user, within the scope. */
  lemma RequeuedOk(z: Scope, s: State, c: nat, index: nat)
    requires DrainInv(z, s, c) && Healthy(z, s, c, Requeue(true, index))
    ensures var job := ConsumerOf(s, c).phase.job;
            var payload := Parsed(Scoped(job.todo[0], job.data));
            IsRetryUnit(Partition(Retry, index), payload) && EntryOk(z, s, Partition(Retry, index), payload)
  {
    var job := ConsumerOf(s, c).phase.job;
    assert TargetOk(z, job.data, job.todo[0]);
  }

  lemma RequeueFrame(z: Scope, s: State, c: nat, index: nat)
    requires DrainInv(z, s, c) && Healthy(z, s, c, Requeue(true, index))
    ensures var s' := ConsumerApply(s, c, Requeue(true, index));
            var job := ConsumerOf(s, c).phase.job;
            var q := Partition(Retry, index);
            && s'.cfg == s.cfg && s'.db == s.db && s'.fx == s.fx && s'.kafka.committed == s.kafka.committed
            && ConsumerOf(s', c) == ConsumerOf(s, c).(phase := UserDone(job, true))
            && LogOf(s'.kafka, q) == LogOf(s.kafka, q) + [Entry(Parsed(Scoped(job.todo[0], job.data)), s.kafka.stamp)]
            && forall p :: p != q ==> LogOf(s'.kafka, p) == LogOf(s.kafka, p)
  {
  }

  lemma RequeueKeepsInv(z: Scope, s: State, c: nat, index: nat)
    requires DrainInv(z, s, c) && Healthy(z, s, c, Requeue(true, index))
    ensures DrainInv(z, ConsumerApply(s, c, Requeue(true, index)), c)
  {
    var s' := ConsumerApply(s, c, Requeue(true, index));
    var me, me' := ConsumerOf(s, c), ConsumerOf(s', c);
    RequeuedOk(z, s, c, index);
    RequeueFrame(z, s, c, index);
    forall p | p in z.parts ensures PartOk(z, s', me', p) {
      assert PartOk(z, s, me, p);
      forall i | CommittedOf(s'.kafka, p) <= i < |LogOf(s'.kafka, p)|
        ensures EntryOk(z, s', p, LogOf(s'.kafka, p)[i].payload)
      {
        if i < |LogOf(s.kafka, p)| { assert EntryOk(z, s, p, LogOf(s.kafka, p)[i].payload); }
      }
    }
    assert PhaseOk(z, s', me');
  }

  lemma RequeueDrains(z: Scope, s: State, c: nat, index: nat)
    requires DrainInv(z, s, c) && Healthy(z, s, c, Requeue(true, index))
    ensures var s' := ConsumerApply(s, c, Requeue(true, index));
            DrainInv(z, s', c) && Less(MeasureOf(z, s', c), MeasureOf(z, s, c))
  {
    RequeueKeepsInv(z, s, c, index);
    RequeueMeasure(z, s, c, index);
  }

  /** One retry record more waits. */
  lemma RequeueLeft(z: Scope, s: State, c: nat, index: nat)
    requires DrainInv(z, s, c) && Healthy(z, s, c, Requeue(true, index))
    ensures var s' := ConsumerApply(s, c, Requeue(true, index));
            var me, me' := ConsumerOf(s, c), ConsumerOf(s', c);
            && MainLeft(s', me', z.parts) == MainLeft(s, me, z.parts)
            && RetryLeft(s', me', z.parts) == RetryLeft(s, me, z.parts) + 1
  {
    var s' := ConsumerApply(s, c, Requeue(true, index));
    var me, me' := ConsumerOf(s, c), ConsumerOf(s', c);
    var q := Partition(Retry, index);
    RequeuedOk(z, s, c, index);
    RequeueFrame(z, s, c, index);
    assert PartOk(z, s, me, q);
    var entry := Entry(Parsed(Scoped(me.phase.job.todo[0], me.phase.job.data)), s.kafka.stamp);
    assert Unread(s', me', q) == Unread(s, me, q) + [entry];
    CountLast(q, Unread(s, me, q), entry);
    LeftChange(s, me, s', me', z.parts, q);
  }

  lemma RequeueMeasure(z: Scope, s: State, c: nat, index: nat)
    requires DrainInv(z, s, c) && Healthy(z, s, c, Requeue(true, index))
    ensures Less(MeasureOf(z, ConsumerApply(s, c, Requeue(true, index)), c), MeasureOf(z, s, c))
  {
    RequeueFrame(z, s, c, index);
    RequeueLeft(z, s, c, index);
    BudgetKept(s, ConsumerApply(s, c, Requeue(true, index)), z);
  }

  lemma CommitDrains(z: Scope, s: State, c: nat, e: ConsumerEvent)
    requires DrainInv(z, s, c) && Healthy(z, s, c, e) && e.Commit?
    ensures var s' := ConsumerApply(s, c, e); DrainInv(z, s', c) && Less(MeasureOf(z, s', c), MeasureOf(z, s, c))
  {
    var s' := ConsumerApply(s, c, e);
    var me, me' := ConsumerOf(s, c), ConsumerOf(s', c);
    forall p | p in z.parts ensures PartOk(z, s', me', p) {
      assert PartOk(z, s, me, p);
      forall i | CommittedOf(s'.kafka, p) <= i < |LogOf(s'.kafka, p)|
        ensures EntryOk(z, s', p, LogOf(s'.kafka, p)[i].payload)
      {
        assert EntryOk(z, s, p, LogOf(s.kafka, p)[i].payload);
      }
    }
    BacklogSame(z, s, me, s', me');
    BudgetKept(s, s', z);
  }

  /** Every successful call brings the backlog closer to its end. */
  lemma HealthyCallDrains(z: Scope, s: State, c: nat, e: ConsumerEvent)
    requires DrainInv(z, s, c) && Healthy(z, s, c, e)
    ensures var s' := ConsumerApply(s, c, e); DrainInv(z, s', c) && Less(MeasureOf(z, s', c), MeasureOf(z, s, c))
  {
    match e
    case Poll(p) => PollDrains(z, s, c, p);
    case Dispatch(members) => DispatchDrains(z, s, c, members);
    case ClearRetry(_) => UserReturnDrains(z, s, c, e);
    case SaveOffline(_, _) => UserReturnDrains(z, s, c, e);
    case CountRetry(_, _) => CountDrains(z, s, c, e);
    case Requeue(_, index) => RequeueDrains(z, s, c, index);
    case Commit(_, _) => CommitDrains(z, s, c, e);
    case Reject(_, _) => RecordCallDrains(z, s, c, e);
    case Finish => RecordCallDrains(z, s, c, e);
    case _ => PushCallDrains(z, s, c, e);
  }

  // ---------------------------------------------------------------- termination and completeness

  lemma ListMembers(members: set<nat>) returns (listed: seq<nat>)
    ensures forall u :: u in listed <==> u in members
    ensures (set u | u in listed) == members
  {
    listed := [];
    if members != {} {
      var u :| u in members;
      var rest := ListMembers(members - {u});
      listed := [u] + rest;
      assert forall v :: v in listed <==> v == u || v in rest;
    }
  }

  /** The call that is due in a record. */
  lemma DueCall(z: Scope, s: State, c: nat) returns (e: ConsumerEvent)
    requires DrainInv(z, s, c) && !ConsumerOf(s, c).phase.Ready?
    ensures Healthy(z, s, c, e)
  {
    var me := ConsumerOf(s, c);
    match me.phase
    case Polled(p, i) =>
      var payload := LogOf(s.kafka, p)[i].payload;
      assert PartOk(z, s, me, p) && EntryOk(z, s, p, payload);
      var r := Route(p.topic, payload);
      var members := [];
      if r.ToGroup? { members := ListMembers(Members(s.db, r.group).Keys); }
      e := Dispatch(members);
    case Rejecting(_, _, _) => e := Reject(true, 0);
    case Handled(_, _, _) => e := Commit(true, true);
    case Fanning(job, push) =>
      if job.todo == [] { return Finish; }
      assert TargetOk(z, job.data, job.todo[0]);
      match push
      case Looking => e := Lookup(0);
      case Delivering(_, _) => e := Deliver(false, false);
      case Clearing => e := ClearRetry(true);
      case Counting => e := CountRetry(true, true);
      case Requeueing =>
        var q :| q in z.parts && q.topic == Retry;
        assert q == Partition(Retry, q.index);
        e := Requeue(true, q.index);
      case DeadLetter => e := SendDlq(true, 0);
      case SavingAfterDlq(_) => e := SaveOffline(true, true);
      case SavingOffline => e := SaveOffline(true, true);
  }

  /** A worker whose calls succeed never gets stuck: some call is due until every partition is
  committed to its end. */
  lemma NeverStuck(z: Scope, s: State, c: nat)
    requires DrainInv(z, s, c)
    ensures (exists e :: Healthy(z, s, c, e))
            || AllCommitted(z, s)
  {
    var me := ConsumerOf(s, c);
    if me.phase.Ready? {
      if p :| p in z.parts && CommittedOf(s.kafka, p) != |LogOf(s.kafka, p)| {
        assert PartOk(z, s, me, p);
        assert Healthy(z, s, c, Poll(p));
      }
    } else {
      var e := DueCall(z, s, c);
    }
  }

  /** No run of successful calls goes on forever. */
  lemma {:induction false} DrainTerminates(z: Scope, run: nat -> State, calls: nat -> ConsumerEvent, c: nat, i: nat)
    requires DrainInv(z, run(i), c)
    ensures exists j: nat ::
              j >= i && !(Healthy(z, run(j), c, calls(j)) && run(j + 1) == ConsumerApply(run(j), c, calls(j)))
    decreases MeasureOf(z, run(i), c).main, MeasureOf(z, run(i), c).mainTodo, MeasureOf(z, run(i), c).retry,
              MeasureOf(z, run(i), c).budget, MeasureOf(z, run(i), c).rank, MeasureOf(z, run(i), c).left
  {
    if Healthy(z, run(i), c, calls(i)) && run(i + 1) == ConsumerApply(run(i), c, calls(i)) {
      HealthyCallDrains(z, run(i), c, calls(i));
      DrainTerminates(z, run, calls, c, i + 1);
    }
  }

  ghost predicate AllCommitted(z: Scope, s: State) {
    forall p :: p in z.parts ==> CommittedOf(s.kafka, p) == |LogOf(s.kafka, p)|
  }

  ghost predicate MakesCall(z: Scope, run: nat -> State, calls: nat -> ConsumerEvent, c: nat, i: nat) {
    Healthy(z, run(i), c, calls(i)) && run(i + 1) == ConsumerApply(run(i), c, calls(i))
  }

  ghost predicate CallDue(z: Scope, s: State, c: nat) {
    exists e :: Healthy(z, s, c, e)
  }

  /** From `i` on the worker makes a successful call whenever one is due. */
  ghost predicate Diligent(z: Scope, run: nat -> State, calls: nat -> ConsumerEvent, c: nat, i: nat) {
    forall j: nat :: j >= i && CallDue(z, run(j), c) ==> MakesCall(z, run, calls, c, j)
  }

  predicate Down(inv: nat -> bool, due: nat -> bool, measure: nat -> Measure, k: nat) {
    inv(k) && due(k) ==> inv(k + 1) && Less(measure(k + 1), measure(k))
  }

  /** Whatever goes down at every step comes to a stop. */
  lemma {:induction false} Descends(inv: nat -> bool, due: nat -> bool, measure: nat -> Measure, i: nat, m: Measure)
    returns (j: nat)
    requires inv(i) && m == measure(i)
    requires forall k: nat :: k >= i ==> Down(inv, due, measure, k)
    ensures j >= i && inv(j) && !due(j) && forall k: nat :: i <= k < j ==> due(k)
    decreases m.main, m.mainTodo, m.retry, m.budget, m.rank, m.left
  {
    if due(i) {
      assert Down(inv, due, measure, i);
      j := Descends(inv, due, measure, i + 1, measure(i + 1));
    } else {
      j := i;
    }
  }

  ghost function InvFrom(z: Scope, run: nat -> State, c: nat): nat -> bool {
    (k: nat) => DrainInv(z, run(k), c)
  }

  ghost function DueFrom(z: Scope, run: nat -> State, c: nat): nat -> bool {
    (k: nat) => CallDue(z, run(k), c)
  }

  ghost function MeasureFrom(z: Scope, run: nat -> State, c: nat): nat -> Measure {
    (k: nat) => MeasureOf(z, run(k), c)
  }

  lemma CallDrains(z: Scope, run: nat -> State, calls: nat -> ConsumerEvent, c: nat, i: nat, k: nat)
    requires Diligent(z, run, calls, c, i) && k >= i
    ensures Down(InvFrom(z, run, c), DueFrom(z, run, c), MeasureFrom(z, run, c), k)
  {
    if DrainInv(z, run(k), c) && CallDue(z, run(k), c) {
      assert MakesCall(z, run, calls, c, k);
      HealthyCallDrains(z, run(k), c, calls(k));
    }
  }

  lemma WorkerStops(z: Scope, run: nat -> State, calls: nat -> ConsumerEvent, c: nat, i: nat) returns (j: nat)
    requires InvFrom(z, run, c)(i) && Diligent(z, run, calls, c, i)
    ensures j >= i && InvFrom(z, run, c)(j) && !DueFrom(z, run, c)(j)
    ensures forall k: nat :: i <= k < j ==> DueFrom(z, run, c)(k)
  {
    forall k: nat | k >= i ensures Down(InvFrom(z, run, c), DueFrom(z, run, c), MeasureFrom(z, run, c), k) {
      CallDrains(z, run, calls, c, i, k);
    }
    j := Descends(InvFrom(z, run, c), DueFrom(z, run, c), MeasureFrom(z, run, c), i, MeasureFrom(z, run, c)(i));
  }

  lemma NoCallDue(z: Scope, run: nat -> State, c: nat, j: nat)
    requires InvFrom(z, run, c)(j) && !DueFrom(z, run, c)(j)
    ensures AllCommitted(z, run(j))
  {
    NeverStuck(z, run(j), c);
  }

  lemma DueMade(z: Scope, run: nat -> State, calls: nat -> ConsumerEvent, c: nat, i: nat, k: nat)
    requires Diligent(z, run, calls, c, i) && k >= i && DueFrom(z, run, c)(k)
    ensures MakesCall(z, run, calls, c, k)
  {
    assert CallDue(z, run(k), c);
  }

  /** Draining: a worker that makes a successful call whenever one is due comes, after finitely many of
  them, to a state in which every partition is committed to its end. */
  lemma DrainCompletes(z: Scope, run: nat -> State, calls: nat -> ConsumerEvent, c: nat, i: nat) returns (j: nat)
    requires DrainInv(z, run(i), c) && Diligent(z, run, calls, c, i)
    ensures j >= i && AllCommitted(z, run(j))
    ensures forall k: nat :: i <= k < j ==> MakesCall(z, run, calls, c, k)
  {
    assert InvFrom(z, run, c)(i);
    j := WorkerStops(z, run, calls, c, i);
    NoCallDue(z, run, c, j);
    forall k: nat | i <= k < j ensures MakesCall(z, run, calls, c, k) { DueMade(z, run, calls, c, i, k); }
  }

  // ---------------------------------------------------------------- the retry budget

  /** With the budget used up, the next count sends the message to the DLQ, and there it is. */
  lemma SpentGoesToDlq(s: State, c: nat, index: nat)
    requires var ph := ConsumerOf(s, c).phase;
             At(ph, Counting) && Remaining(s, ph.job.data.messageId, ph.job.todo[0]) == 0
    ensures var job := ConsumerOf(s, c).phase.job;
            var count := CountRetry(true, true);
            && ConsumerEnabled(s, c, count)
            && var s1 := ConsumerApply(s, c, count);
            && ConsumerEnabled(s1, c, SendDlq(true, index))
            && InLog(ConsumerApply(s1, c, SendDlq(true, index)).kafka, Dlq, Parsed(Scoped(job.todo[0], job.data)))
  {
    var job := ConsumerOf(s, c).phase.job;
    var s1 := ConsumerApply(s, c, CountRetry(true, true));
    var s2 := ConsumerApply(s1, c, SendDlq(true, index));
    var p := Partition(Dlq, index);
    assert s2.kafka.logs[p][|LogOf(s1.kafka, p)|].payload == Parsed(Scoped(job.todo[0], job.data));
  }

  /** A delivery that clears the counter gives the pair its whole budget back, and no other pair's. */
  lemma ClearRestores(s: State, c: nat, m: nat, u: nat)
    requires ConsumerEnabled(s, c, ClearRetry(true))
    ensures var s', job := ConsumerApply(s, c, ClearRetry(true)), ConsumerOf(s, c).phase.job;
            Remaining(s', m, u) ==
            if m == job.data.messageId && u == job.todo[0] then s.cfg.pushMaxRetry else Remaining(s, m, u)
  {
  }

  /** So does a counter that expires. */
  lemma ExpiryRestores(s: State, expired: nat, user: nat, m: nat, u: nat)
    ensures Remaining(Apply(s, ExpireRetry(expired, user)), m, u) ==
            if m == expired && u == user then s.cfg.pushMaxRetry else Remaining(s, m, u)
  {
  }

  ghost predicate HealthyRun(z: Scope, s: State, c: nat, es: seq<ConsumerEvent>)
    decreases |es|
  {
    es == [] || (Healthy(z, s, c, es[0]) && HealthyRun(z, ConsumerApply(s, c, es[0]), c, es[1..]))
  }

  ghost function AfterCalls(z: Scope, s: State, c: nat, es: seq<ConsumerEvent>): State
    requires HealthyRun(z, s, c, es)
    decreases |es|
  {
    if es == [] then s else AfterCalls(z, ConsumerApply(s, c, es[0]), c, es[1..])
  }

  /** The worker is pushing message `m` to user `u`. */
  predicate ForPair(s: State, c: nat, m: nat, u: nat) {
    var ph := ConsumerOf(s, c).phase;
    ph.Fanning? && ph.job.todo != [] && ph.job.data.messageId == m && ph.job.todo[0] == u
  }

  /** Retry records the run appends for the pair. */
  ghost function Requeues(z: Scope, s: State, c: nat, es: seq<ConsumerEvent>, m: nat, u: nat): nat
    requires HealthyRun(z, s, c, es)
    decreases |es|
  {
    if es == [] then 0
    else (if es[0].Requeue? && ForPair(s, c, m, u) then 1 else 0)
         + Requeues(z, ConsumerApply(s, c, es[0]), c, es[1..], m, u)
  }

  ghost predicate NoClear(z: Scope, s: State, c: nat, es: seq<ConsumerEvent>, m: nat, u: nat)
    requires HealthyRun(z, s, c, es)
    decreases |es|
  {
    es == [] || (!(es[0].ClearRetry? && ForPair(s, c, m, u)) &&
                 NoClear(z, ConsumerApply(s, c, es[0]), c, es[1..], m, u))
  }

  /** Retries the pair has had, not counting one that is counted but not yet queued. */
  function Spent(s: State, c: nat, m: nat, u: nat): int {
    s.cfg.pushMaxRetry - Remaining(s, m, u)
    - (if ForPair(s, c, m, u) && ConsumerOf(s, c).phase.push.Requeueing? then 1 else 0)
  }

  lemma OneCallSpends(z: Scope, s: State, c: nat, e: ConsumerEvent, m: nat, u: nat)
    requires DrainInv(z, s, c) && Healthy(z, s, c, e) && !(e.ClearRetry? && ForPair(s, c, m, u))
    ensures Spent(ConsumerApply(s, c, e), c, m, u) == Spent(s, c, m, u)
            + (if e.Requeue? && ForPair(s, c, m, u) then 1 else 0)
  {
  }

  lemma {:induction false} RunSpends(z: Scope, s: State, c: nat, es: seq<ConsumerEvent>, m: nat, u: nat)
    requires DrainInv(z, s, c) && HealthyRun(z, s, c, es) && NoClear(z, s, c, es, m, u)
    ensures Requeues(z, s, c, es, m, u) == Spent(AfterCalls(z, s, c, es), c, m, u) - Spent(s, c, m, u)
    ensures AfterCalls(z, s, c, es).cfg == s.cfg
    decreases |es|
  {
    if es != [] {
      HealthyCallDrains(z, s, c, es[0]);
      OneCallSpends(z, s, c, es[0], m, u);
      RunSpends(z, ConsumerApply(s, c, es[0]), c, es[1..], m, u);
    }
  }

  /** Between two clears a pair gets at most max_retry_count retry records. */
  lemma RetryBudget(z: Scope, s: State, c: nat, es: seq<ConsumerEvent>, m: nat, u: nat)
    requires DrainInv(z, s, c) && HealthyRun(z, s, c, es) && NoClear(z, s, c, es, m, u)
    requires ConsumerOf(s, c).phase.Ready?
    ensures Requeues(z, s, c, es, m, u) <= Remaining(s, m, u) <= s.cfg.pushMaxRetry
  {
    RunSpends(z, s, c, es, m, u);
  }
}
