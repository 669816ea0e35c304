/** PushWorker and PushDispatcher as the source writes them, over the shared cluster. Each method's
contract says which calls it made, in order, and what it answered. */
module PushWorkers {
  import opened PipelineState
  import opened PipelineGrowth
  import opened PushSafety
  import opened Cluster

  datatype PushResult = PushResult(successCount: nat, failedCount: nat)

  // ---------------------------------------------------------------- the calls of each part

  /** After every device refused: counted, then queued again, or dead-lettered and saved. */
  predicate IsFailure(calls: seq<ConsumerEvent>, ok: bool) {
    && |calls| >= 2 && calls[0].CountRetry?
    && if calls[1].Requeue? then |calls| == 2 && calls[1].ok == ok
       else |calls| == 3 && calls[1].SendDlq? && calls[1].ok == ok && calls[2].SaveOffline?
  }

  predicate AllDeliver(calls: seq<ConsumerEvent>) {
    forall i :: 0 <= i < |calls| ==> calls[i].Deliver?
  }

  predicate SomeAccepted(calls: seq<ConsumerEvent>) {
    exists i :: 0 <= i < |calls| && calls[i].Deliver? && calls[i].ok
  }

  /** Each device tried once; what follows depends on whether one accepted. */
  predicate IsDelivery(calls: seq<ConsumerEvent>, devices: nat, ok: bool) {
    && |calls| > devices && AllDeliver(calls[..devices])
    && if SomeAccepted(calls[..devices]) then ok && |calls| == devices + 1 && calls[devices].ClearRetry?
       else IsFailure(calls[devices..], ok)
  }

  /** One user: refused, or saved offline if no device is online, or delivered. */
  predicate IsUserPush(calls: seq<ConsumerEvent>, ok: bool) {
    && |calls| > 0
    && if calls[0].RefuseUser? then |calls| == 1 && !ok
       else
         && calls[0].Lookup?
         && if calls[0].devices == 0 then |calls| == 2 && calls[1].SaveOffline? && calls[1].ok == ok
            else IsDelivery(calls[1..], calls[0].devices, ok)
  }

  datatype UserPush = UserPush(ok: bool, calls: seq<ConsumerEvent>)

  function Flatten(pushes: seq<UserPush>): seq<ConsumerEvent> {
    if pushes == [] then [] else Flatten(pushes[..|pushes| - 1]) + pushes[|pushes| - 1].calls
  }

  function Failures(pushes: seq<UserPush>): nat {
    if pushes == [] then 0 else Failures(pushes[..|pushes| - 1]) + if pushes[|pushes| - 1].ok then 0 else 1
  }

  predicate AllUserPushes(pushes: seq<UserPush>) {
    pushes == [] || (AllUserPushes(pushes[..|pushes| - 1]) && var p := pushes[|pushes| - 1]; IsUserPush(p.calls, p.ok))
  }

  lemma OneMoreTry(tries: seq<ConsumerEvent>, e: ConsumerEvent)
    requires AllDeliver(tries) && e.Deliver?
    ensures AllDeliver(tries + [e]) && (SomeAccepted(tries + [e]) <==> e.ok || SomeAccepted(tries))
  {
    if e.ok { assert (tries + [e])[|tries|] == e; }
    if SomeAccepted(tries) {
      var i :| 0 <= i < |tries| && tries[i].Deliver? && tries[i].ok;
      assert (tries + [e])[i] == tries[i];
    }
  }

  lemma OneMorePush(pushes: seq<UserPush>, p: UserPush)
    requires AllUserPushes(pushes) && IsUserPush(p.calls, p.ok)
    ensures AllUserPushes(pushes + [p]) && Flatten(pushes + [p]) == Flatten(pushes) + p.calls
    ensures Failures(pushes + [p]) == Failures(pushes) + if p.ok then 0 else 1
  {
    assert (pushes + [p])[..|pushes|] == pushes;
  }

  /** A record: dead-lettered, or refused because the members are not known, or pushed to each user. */
  ghost predicate IsHandler(calls: seq<ConsumerEvent>, ok: bool) {
    && |calls| > 0 && calls[0].Dispatch?
    && if |calls| == 1 then !ok
       else if |calls| == 2 && calls[1].Reject? then calls[1].ok == ok
       else exists pushes :: IsFanOut(calls, ok, pushes)
  }

  ghost predicate IsFanOut(calls: seq<ConsumerEvent>, ok: bool, pushes: seq<UserPush>) {
    && AllUserPushes(pushes) && |calls| >= 2 && calls == [calls[0]] + Flatten(pushes) + [Finish]
    && (ok <==> Failures(pushes) == 0)
  }

  lemma FannedOut(dispatch: ConsumerEvent, pushes: seq<UserPush>, ok: bool)
    requires dispatch.Dispatch? && AllUserPushes(pushes) && (ok <==> Failures(pushes) == 0)
    ensures IsHandler([dispatch] + Flatten(pushes) + [Finish], ok)
  {
    var calls := [dispatch] + Flatten(pushes) + [Finish];
    assert calls[|calls| - 1] == Finish && calls[0] == dispatch;
    assert IsFanOut(calls, ok, pushes);
  }

  lemma OneUser(dispatch: ConsumerEvent, pushed: seq<ConsumerEvent>, ok: bool)
    requires dispatch.Dispatch? && IsUserPush(pushed, ok)
    ensures IsHandler([dispatch] + pushed + [Finish], ok)
  {
    var p := UserPush(ok, pushed);
    assert [] + [p] == [p];
    OneMorePush([], p);
    assert Flatten([]) + pushed == pushed;
    FannedOut(dispatch, [p], ok);
  }

  /** What follows the handler of a polled record: a commit if and only if the handler succeeded, and a
  rewind unless that commit succeeded. The worker goes on unless the rewind failed. */
  predicate IsTail(tail: seq<ConsumerEvent>, ok: bool, goesOn: bool) {
    if ok then
      && |tail| >= 1 && tail[0].Commit?
      && if tail[0].ok then |tail| == 1 && goesOn else |tail| == 2 && tail[1] == Seek(goesOn)
    else tail == [Seek(goesOn)]
  }

  function GroupJob(part: Partition, offset: nat, data: Data, targets: seq<nat>): Job {
    Job(part, offset, data, (set u | u in targets), targets, 0)
  }

  class PushWorker {
    const cluster: SharedCluster
    const id: nat
    var running: bool

    constructor (cluster: SharedCluster, id: nat)
      ensures this.cluster == cluster && this.id == id && running
    {
      this.cluster := cluster;
      this.id := id;
      running := true;
    }

    function Me(): Consumer
      reads cluster
    {
      ConsumerOf(cluster.st, id)
    }

    ghost function Made(): seq<ConsumerEvent>
      reads cluster
    {
      CallsBy(cluster.history, id)
    }

    /** One of this worker's calls; afterwards everybody else may go on. */
    method Call(e: ConsumerEvent)
      requires cluster.Valid() && ConsumerEnabled(cluster.st, id, e)
      modifies cluster
      ensures cluster.Valid() && Me() == old(ConsumerApply(cluster.st, id, e).consumers[id])
      ensures LogsGrow(old(cluster.st.kafka), cluster.st.kafka) && Made() == old(Made()) + [e]
    {
      CallsByExtend(cluster.history, OnConsumer(id, e), id);
      cluster.LogsGrowBy(OnConsumer(id, e));
      cluster.Perform(OnConsumer(id, e));
      cluster.OthersThanConsumer(id);
    }

    // -------------------------------------------------------------- PushDispatcher

    ghost predicate Pushing(job: Job, push: Push)
      reads cluster
    {
      cluster.Valid() && Me().phase == Fanning(job, push) && job.todo != []
    }

    /** INCR of the retry counter; a failed one reports -1. */
    method Count(ghost job: Job) returns (count: int, ghost call: ConsumerEvent)
      requires Pushing(job, Counting)
      modifies cluster
      ensures Pushing(job, AfterCount(cluster.cfg, count)) && Me().position == old(Me().position)
      ensures Made() == old(Made()) + [call] && call.CountRetry?
      ensures count == if call.ok then RetryCountOf(old(cluster.st).fx, job.data.messageId, job.todo[0]) + 1 else -1
    {
      var counted: bool, applied: bool := *, *;
      cluster.Configured();
      var data, user := Me().phase.job.data, Me().phase.job.todo[0];
      count := if counted then RetryCountOf(cluster.st.fx, data.messageId, user) + 1 else -1;
      call := CountRetry(counted, counted || applied);
      Call(CountRetry(counted, counted || applied));
    }

    method ProduceRetry(ghost job: Job) returns (ok: bool, ghost call: ConsumerEvent)
      requires Pushing(job, Requeueing)
      modifies cluster
      ensures cluster.Valid() && Me() == old(Me()).(phase := UserDone(job, ok))
      ensures Made() == old(Made()) + [call] && call.Requeue? && call.ok == ok
    {
      var index: nat := *;
      ok := *;
      call := Requeue(ok, index);
      Call(Requeue(ok, index));
    }

    method ProduceDlq(ghost job: Job) returns (ok: bool, ghost call: ConsumerEvent)
      requires Pushing(job, Push.DeadLetter)
      modifies cluster
      ensures Pushing(job, SavingAfterDlq(ok)) && Me().position == old(Me().position)
      ensures Made() == old(Made()) + [call] && call.SendDlq? && call.ok == ok
    {
      var index: nat := *;
      ok := *;
      call := SendDlq(ok, index);
      Call(SendDlq(ok, index));
    }

    /** insertOfflineMessage; after the DLQ its result is ignored. */
    method Save(ghost job: Job, ghost push: Push) returns (ok: bool, ghost call: ConsumerEvent)
      requires Pushing(job, push) && (push.SavingOffline? || push.SavingAfterDlq?)
      modifies cluster
      ensures cluster.Valid()
      ensures Me() == old(Me()).(phase := UserDone(job, if push.SavingOffline? then ok else push.dlqOk))
      ensures Made() == old(Made()) + [call] && call.SaveOffline? && call.ok == ok
    {
      var written: bool := *;
      ok := *;
      call := SaveOffline(ok, ok || written);
      Call(SaveOffline(ok, ok || written));
    }

    /** Within the budget the message is queued again; past it, it is dead-lettered and saved. */
    method HandlePushFailure(ghost job: Job) returns (ok: bool, ghost calls: seq<ConsumerEvent>)
      requires Pushing(job, Counting)
      modifies cluster
      ensures cluster.Valid() && Me() == old(Me()).(phase := UserDone(job, ok))
      ensures Made() == old(Made()) + calls && IsFailure(calls, ok)
      ensures calls[1].Requeue? <==>
              || !calls[0].ok
              || RetryCountOf(old(cluster.st).fx, job.data.messageId, job.todo[0]) < cluster.cfg.pushMaxRetry
    {
      ghost var first, second, third;
      var count, saved;
      count, first := Count(job);
      if count <= cluster.cfg.pushMaxRetry {
        ok, second := ProduceRetry(job);
        calls := [first, second];
        return;
      }
      ok, second := ProduceDlq(job);
      saved, third := Save(job, SavingAfterDlq(ok));
      calls := [first, second, third];
    }

    method LookUp(ghost job: Job) returns (devices: nat)
      requires Pushing(job, Looking) && job.todo[0] != 0 && job.data.messageId != 0
      modifies cluster
      ensures Pushing(job, AfterLookup(devices)) && Me().position == old(Me().position)
      ensures Made() == old(Made()) + [Lookup(devices)]
    {
      devices := *;
      Call(Lookup(devices));
    }

    method Refuse(ghost job: Job)
      requires Pushing(job, Looking) && (job.todo[0] == 0 || job.data.messageId == 0)
      modifies cluster
      ensures cluster.Valid() && Me() == old(Me()).(phase := UserDone(job, false))
      ensures Made() == old(Made()) + [RefuseUser]
    {
      Call(RefuseUser);
    }

    method PushToUser(ghost job: Job) returns (ok: bool, ghost calls: seq<ConsumerEvent>)
      requires Pushing(job, Looking)
      modifies cluster
      ensures cluster.Valid() && Me() == old(Me()).(phase := UserDone(job, ok))
      ensures Made() == old(Made()) + calls && IsUserPush(calls, ok)
      ensures calls[0].RefuseUser? <==> job.todo[0] == 0 || job.data.messageId == 0
    {
      var user, data := Me().phase.job.todo[0], Me().phase.job.data;
      if user == 0 || data.messageId == 0 {
        Refuse(job);
        return false, [RefuseUser];
      }
      var devices := LookUp(job);
      ghost var later, save;
      if devices > 0 {
        ok, later := PushToDevices(job, devices);
      } else {
        ok, save := Save(job, SavingOffline);
        later := [save];
      }
      calls := [Lookup(devices)] + later;
      assert calls[1..] == later;
    }

    method PushToDevices(ghost job: Job, devices: nat) returns (ok: bool, ghost calls: seq<ConsumerEvent>)
      requires devices > 0 && Pushing(job, Delivering(devices, false))
      modifies cluster
      ensures cluster.Valid() && Me() == old(Me()).(phase := UserDone(job, ok))
      ensures Made() == old(Made()) + calls && IsDelivery(calls, devices, ok)
    {
      var delivered;
      ghost var tries, later;
      delivered, tries := DeliverToDevices(job, devices);
      if delivered {
        var cleared: bool := *;
        Call(ClearRetry(cleared));
        ok, later := true, [ClearRetry(cleared)];
      } else {
        ok, later := HandlePushFailure(job);
      }
      calls := tries + later;
      assert calls[..devices] == tries && calls[devices..] == later;
    }

    /** Every device is tried, also after one has accepted. */
    method DeliverToDevices(ghost job: Job, devices: nat) returns (delivered: bool, ghost tries: seq<ConsumerEvent>)
      requires devices > 0 && Pushing(job, Delivering(devices, false))
      modifies cluster
      ensures Pushing(job, if delivered then Clearing else Counting) && Me().position == old(Me().position)
      ensures Made() == old(Made()) + tries && |tries| == devices && AllDeliver(tries) &&
              delivered == SomeAccepted(tries)
    {
      delivered, tries := false, [];
      for i := 0 to devices
        invariant Pushing(job, AfterDelivery(devices - i, delivered)) && Me().position == old(Me().position)
        invariant Made() == old(Made()) + tries && |tries| == i && AllDeliver(tries) && delivered == SomeAccepted(tries)
      {
        var ok: bool, reached: bool := *, *;
        Call(Deliver(ok, ok || reached));
        OneMoreTry(tries, Deliver(ok, ok || reached));
        tries := tries + [Deliver(ok, ok || reached)];
        delivered := ok || delivered;
      }
    }

    /** The next member; `made` is what was called before the first. */
    method PushNext(ghost job: Job, ghost pushes: seq<UserPush>, ghost made: seq<ConsumerEvent>)
      returns (ok: bool, ghost rest: Job, ghost all: seq<UserPush>)
      requires Pushing(job, Looking) && Made() == made + Flatten(pushes) && AllUserPushes(pushes)
      modifies cluster
      ensures cluster.Valid() && Me() == old(Me()).(phase := Fanning(rest, Looking))
      ensures rest == job.(todo := job.todo[1..], failed := if ok then job.failed else job.failed + 1)
      ensures Made() == made + Flatten(all) && AllUserPushes(all)
      ensures |all| == |pushes| + 1 && Failures(all) == Failures(pushes) + if ok then 0 else 1
    {
      ghost var calls;
      ok, calls := PushToUser(job);
      OneMorePush(pushes, UserPush(ok, calls));
      Associate(made, Flatten(pushes), calls);
      all := pushes + [UserPush(ok, calls)];
      rest := UserDone(job, ok).job;
    }

    method PushToGroup(ghost job: Job) returns (result: PushResult, ghost pushes: seq<UserPush>)
      requires cluster.Valid() && Me().phase == Fanning(job, Looking) && job.failed == 0
      modifies cluster
      ensures cluster.Valid() && result.successCount + result.failedCount == |job.todo|
      ensures Me() == old(Me()).(phase := Fanning(job.(todo := [], failed := result.failedCount), Looking))
      ensures Made() == old(Made()) + Flatten(pushes) && AllUserPushes(pushes)
      ensures |pushes| == |job.todo| && result.failedCount == Failures(pushes)
    {
      result, pushes := PushResult(0, 0), [];
      ghost var rest := job;
      while Me().phase.job.todo != []
        invariant cluster.Valid() && Me() == old(Me()).(phase := Fanning(rest, Looking))
        invariant rest == job.(todo := rest.todo, failed := result.failedCount)
        invariant result.successCount + result.failedCount + |rest.todo| == |job.todo|
        invariant Made() == old(Made()) + Flatten(pushes) && AllUserPushes(pushes)
        invariant |pushes| + |rest.todo| == |job.todo| && result.failedCount == Failures(pushes)
        decreases |Me().phase.job.todo|
      {
        var ok;
        ok, rest, pushes := PushNext(rest, pushes, old(Made()));
        result := if ok then result.(successCount := result.successCount + 1)
                  else result.(failedCount := result.failedCount + 1);
      }
    }

    // -------------------------------------------------------------- the topic handlers

    /** The record being handled is the one polled. */
    ghost predicate Handling(part: Partition, offset: nat, payload: Payload)
      reads cluster
    {
      && cluster.Valid() && Me().phase == Polled(part, offset)
      && offset < |LogOf(cluster.st.kafka, part)| && LogOf(cluster.st.kafka, part)[offset].payload == payload
    }

    /** What every handler does: it ends with its answer, having made the calls of a handler. */
    twostate predicate HandledBy(part: Partition, offset: nat, ok: bool, calls: seq<ConsumerEvent>)
      reads cluster
    {
      && cluster.Valid() && Me() == old(Me()).(phase := Handled(part, offset, ok))
      && Made() == old(Made()) + calls && IsHandler(calls, ok)
    }

    method DeadLetter(part: Partition, offset: nat, payload: Payload)
      returns (ok: bool, ghost calls: seq<ConsumerEvent>)
      requires Handling(part, offset, payload) && Route(part.topic, payload).ToDlq?
      modifies cluster
      ensures HandledBy(part, offset, ok, calls) && |calls| == 2 && calls[1].Reject?
    {
      var index: nat := *;
      ok := *;
      Call(Dispatch([]));
      Call(Reject(ok, index));
      calls := [Dispatch([]), Reject(ok, index)];
    }

    method DispatchUser(part: Partition, offset: nat, payload: Payload, user: nat)
      requires Handling(part, offset, payload) && Route(part.topic, payload) == ToUser(user)
      modifies cluster
      ensures cluster.Valid()
      ensures Me() == old(Me()).(phase := Fanning(Job(part, offset, payload.data, {user}, [user], 0), Looking))
      ensures Made() == old(Made()) + [Dispatch([])]
    {
      Call(Dispatch([]));
    }

    method FinishJob(ghost job: Job)
      requires cluster.Valid() && Me().phase.Fanning? && Me().phase.job == job && job.todo == []
      modifies cluster
      ensures cluster.Valid() && Me() == old(Me()).(phase := Handled(job.part, job.offset, job.failed == 0))
      ensures Made() == old(Made()) + [Finish]
    {
      Call(Finish);
    }

    method PushOne(part: Partition, offset: nat, payload: Payload, user: nat)
      returns (ok: bool, ghost calls: seq<ConsumerEvent>)
      requires Handling(part, offset, payload) && Route(part.topic, payload) == ToUser(user)
      modifies cluster
      ensures HandledBy(part, offset, ok, calls)
    {
      ghost var pushed, job := [], Job(part, offset, payload.data, {user}, [user], 0);
      DispatchUser(part, offset, payload, user);
      ok, pushed := PushToUser(job);
      FinishJob(UserDone(job, ok).job);
      calls := [Dispatch([])] + pushed + [Finish];
      Associate(old(Made()), [Dispatch([])], pushed);
      Associate(old(Made()), [Dispatch([])] + pushed, [Finish]);
      OneUser(Dispatch([]), pushed, ok);
    }

    /** listMembers returns the whole membership, or nothing when the query fails. */
    method DispatchGroup(part: Partition, offset: nat, payload: Payload, group: nat)
      returns (targets: seq<nat>, known: bool, ghost call: ConsumerEvent)
      requires Handling(part, offset, payload) && Route(part.topic, payload) == ToGroup(group)
      modifies cluster
      ensures cluster.Valid() && Made() == old(Made()) + [call] && call.Dispatch?
      ensures Me() == old(Me()).(phase := if known then Fanning(GroupJob(part, offset, payload.data, targets), Looking)
                                          else Handled(part, offset, false))
    {
      var members: seq<nat> := *;
      if (set u | u in members) != Members(cluster.st.db, group).Keys || members == [] {
        Call(Dispatch([]));     // the query failed, or the group is empty
        return [], false, Dispatch([]);
      }
      cluster.Configured();
      targets := FanOut(members, payload.data.fromUser, cluster.cfg.skipSender);
      known, call := true, Dispatch(members);
      Call(Dispatch(members));
    }

    method PushKnown(ghost job: Job) returns (ok: bool, ghost pushes: seq<UserPush>)
      requires cluster.Valid() && Me().phase == Fanning(job, Looking) && job.failed == 0
      modifies cluster
      ensures cluster.Valid() && Me() == old(Me()).(phase := Handled(job.part, job.offset, ok))
      ensures Made() == old(Made()) + Flatten(pushes) + [Finish] && AllUserPushes(pushes) &&
              ok == (Failures(pushes) == 0)
    {
      var result;
      result, pushes := PushToGroup(job);
      FinishJob(job.(todo := [], failed := result.failedCount));
      ok := result.failedCount == 0;
    }

    method PushMembers(part: Partition, offset: nat, payload: Payload, group: nat)
      returns (ok: bool, ghost calls: seq<ConsumerEvent>)
      requires Handling(part, offset, payload) && Route(part.topic, payload) == ToGroup(group)
      modifies cluster
      ensures HandledBy(part, offset, ok, calls)
    {
      ghost var call, pushes;
      var targets, known;
      targets, known, call := DispatchGroup(part, offset, payload, group);
      if !known { return false, [call]; }
      ok, pushes := PushKnown(GroupJob(part, offset, payload.data, targets));
      calls := [call] + Flatten(pushes) + [Finish];
      Associate(old(Made()), [call], Flatten(pushes));
      Associate(old(Made()), [call] + Flatten(pushes), [Finish]);
      FannedOut(call, pushes, ok);
    }

    /** The record counts as settled: everybody it is for has it, or will get it again. */
    ghost predicate Settled(part: Partition, offset: nat)
      reads cluster
    {
      offset < |LogOf(cluster.st.kafka, part)| &&
          EntrySettled(cluster.st, part, offset, LogOf(cluster.st.kafka, part)[offset])
    }

    lemma HandledIsSettled(part: Partition, offset: nat)
      requires cluster.Valid() && Me().phase == Handled(part, offset, true)
      ensures Settled(part, offset)
    {
      cluster.Reached();
      assert ConsumerInv(cluster.st, Me());
    }

    method HandleKafkaMessage(part: Partition, offset: nat, payload: Payload)
      returns (ok: bool, ghost calls: seq<ConsumerEvent>)
      requires Handling(part, offset, payload)
      modifies cluster
      ensures HandledBy(part, offset, ok, calls) && (ok ==> Settled(part, offset))
    {
      if payload.Malformed? {
        ok, calls := DeadLetter(part, offset, payload);
      } else {
        ok, calls := HandleParsed(part, offset, payload, payload.data);
      }
      if ok { HandledIsSettled(part, offset); }
    }

    /** handleSingleMessage, handleGroupMessage and handleRetryMessage. */
    method HandleParsed(part: Partition, offset: nat, payload: Payload, d: Data)
      returns (ok: bool, ghost calls: seq<ConsumerEvent>)
      requires Handling(part, offset, payload) && payload == Parsed(d)
      modifies cluster
      ensures HandledBy(part, offset, ok, calls)
    {
      match part.topic
      case Single =>
        if d.messageId == 0 || d.fromUser == 0 || d.toUser == 0 {
          ok, calls := DeadLetter(part, offset, payload);
        } else {
          ok, calls := PushOne(part, offset, payload, d.toUser);
        }
      case Group =>
        if d.messageId == 0 || d.fromUser == 0 || d.groupId == 0 {
          ok, calls := DeadLetter(part, offset, payload);
        } else {
          ok, calls := PushMembers(part, offset, payload, d.groupId);
        }
      case Retry =>
        if d.toUser != 0 {
          ok, calls := PushOne(part, offset, payload, d.toUser);
        } else if d.groupId != 0 {
          ok, calls := PushMembers(part, offset, payload, d.groupId);
        } else {
          ok, calls := DeadLetter(part, offset, payload);
        }
      case _ =>
        ok, calls := DeadLetter(part, offset, payload);
    }

    // -------------------------------------------------------------- the run loop

    method CommitOffset(ghost part: Partition, ghost offset: nat) returns (committed: bool, ghost call: ConsumerEvent)
      requires cluster.Valid() && Me().phase == Handled(part, offset, true)
      modifies cluster
      ensures cluster.Valid() && Made() == old(Made()) + [call] && call.Commit? && call.ok == committed
      ensures Me() == old(Me()).(phase := if committed then Ready else Rewinding(part, offset))
    {
      var applied: bool := *;
      committed := *;
      call := Commit(committed, committed || applied);
      Call(Commit(committed, committed || applied));
    }

    /** seek back to the record; if that fails the worker stops for good. */
    method Rewind(ghost part: Partition, ghost offset: nat)
      requires cluster.Valid() && running
      requires Me().phase == Rewinding(part, offset) || Me().phase == Handled(part, offset, false)
      modifies this, cluster
      ensures cluster.Valid() && Made() == old(Made()) + [Seek(running)]
      ensures Me() == if running then Consumer(old(Me()).position[part := offset], Ready)
              else old(Me()).(phase := Stopped)
    {
      var rewound: bool := *;
      Call(Seek(rewound));
      if !rewound { running := false; }
    }

    /** After the handler: commit on success, rewind otherwise or if the commit fails. */
    method Settle(ghost part: Partition, ghost offset: nat, ok: bool) returns (ghost tail: seq<ConsumerEvent>)
      requires cluster.Valid() && running && Me().phase == Handled(part, offset, ok)
      modifies this, cluster
      ensures cluster.Valid() && Me().phase == (if running then Ready else Stopped)
      ensures Me().position == old(Me().position) || Me().position == old(Me().position)[part := offset]
      ensures Made() == old(Made()) + tail && IsTail(tail, ok, running)
    {
      tail := [];
      if ok {
        ghost var call;
        var committed;
        committed, call := CommitOffset(part, offset);
        tail := [call];
        if committed { return; }
      }
      Rewind(part, offset);
      tail := tail + [Seek(running)];
    }

    /** The body of the run loop for a valid record: commit after success, rewind otherwise, and
    stop for good if the rewind fails. */
    method HandlePolled(part: Partition, offset: nat, payload: Payload)
      returns (ok: bool, ghost handler: seq<ConsumerEvent>, ghost tail: seq<ConsumerEvent>)
      requires Handling(part, offset, payload) && running
      modifies this, cluster
      ensures cluster.Valid() && Me().phase == (if running then Ready else Stopped)
      ensures Me().position == old(Me().position) || Me().position == old(Me().position)[part := offset]
      ensures Made() == old(Made()) + handler + tail && IsHandler(handler, ok) && IsTail(tail, ok, running)
    {
      ok, handler := HandleKafkaMessage(part, offset, payload);
      tail := Settle(part, offset, ok);
    }

    /** `polls` bounds how often poll is called before stop() is. Every record is polled, handled and then
    committed or rewound as its handler answered, or left when the worker is told to stop. */
    method Run(polls: nat) returns (ghost rounds: seq<Round>)
      requires cluster.Valid() && running && Me().phase == Ready
      modifies this, cluster
      ensures cluster.Valid() && Me().phase == (if running then Ready else Stopped)
      ensures Made() == old(Made()) + AllRounds(rounds) && GoodRounds(rounds)
      ensures |rounds| <= polls && (running ==> |rounds| == polls)
    {
      rounds := [];
      for i := 0 to polls
        invariant cluster.Valid() && running && Me().phase == Ready
        invariant Made() == old(Made()) + AllRounds(rounds) && GoodRounds(rounds) && |rounds| == i
      {
        rounds := NextRound(rounds, old(Made()));
        if !running { return; }
      }
    }

    /** One turn of the loop; `made` is what was called before the first. */
    method NextRound(ghost rounds: seq<Round>, ghost made: seq<ConsumerEvent>) returns (ghost all: seq<Round>)
      requires cluster.Valid() && running && Me().phase == Ready && Made() == made + AllRounds(rounds) &&
               GoodRounds(rounds)
      modifies this, cluster
      ensures cluster.Valid() && Me().phase == (if running then Ready else Stopped)
      ensures Made() == made + AllRounds(all) && GoodRounds(all) && |all| == |rounds| + 1
    {
      ghost var round := PollOnce();
      OneMoreRound(rounds, round);
      Associate(made, AllRounds(rounds), RoundCalls(round));
      all := rounds + [round];
    }

    method PollOnce() returns (ghost round: Round)
      requires cluster.Valid() && running && Me().phase == Ready
      modifies this, cluster
      ensures cluster.Valid() && Me().phase == (if running then Ready else Stopped)
      ensures Made() == old(Made()) + RoundCalls(round) && IsRound(round)
    {
      cluster.OthersThanConsumer(id);
      var part: Partition := *;
      if part in Me().position && Me().position[part] < |LogOf(cluster.st.kafka, part)| {
        round := PollOne(part);
      } else {
        round := NoRecord(part);
      }
    }

    /** No record; a rebalance may assign a partition. */
    method NoRecord(part: Partition) returns (ghost round: Round)
      requires cluster.Valid() && Me().phase == Ready
      modifies cluster
      ensures cluster.Valid() && Me().phase == Ready && Made() == old(Made()) + RoundCalls(round) &&
              round == Rebalance(part)
    {
      Call(Assign(part));
      round := Rebalance(part);
    }

    /** One record polled. */
    method PollOne(part: Partition) returns (ghost round: Round)
      requires cluster.Valid() && running && Me().phase == Ready
      requires part in Me().position && Me().position[part] < |LogOf(cluster.st.kafka, part)|
      modifies this, cluster
      ensures cluster.Valid() && Me().phase == (if running then Ready else Stopped)
      ensures Made() == old(Made()) + RoundCalls(round) && IsRound(round)
      ensures !round.Rebalance? && round.part == part && (round.Record? ==> round.goesOn == running)
    {
      var offset, payload := Take(part);
      var stopped: bool := *;
      if stopped {
        Leave(part, offset);
        return StopPolled(part);
      }
      ghost var handler, tail;
      var ok;
      ok, handler, tail := HandlePolled(part, offset, payload);
      round := Record(part, handler, tail, ok, running);
      PolledCalls(old(Made()), round);
    }

    method Take(part: Partition) returns (offset: nat, payload: Payload)
      requires cluster.Valid() && Me().phase == Ready
      requires part in Me().position && Me().position[part] < |LogOf(cluster.st.kafka, part)|
      modifies cluster
      ensures Handling(part, offset, payload) && Made() == old(Made()) + [Poll(part)]
      ensures offset == old(Me().position[part]) && Me().position == old(Me().position)[part := offset + 1]
    {
      offset := Me().position[part];
      payload := LogOf(cluster.st.kafka, part)[offset].payload;
      Call(Poll(part));
    }

    /** stop() between the poll and the handler. */
    method Leave(ghost part: Partition, ghost offset: nat)
      requires cluster.Valid() && Me().phase == Polled(part, offset)
      modifies this, cluster
      ensures cluster.Valid() && !running && Me() == old(Me()).(phase := Stopped) &&
              Made() == old(Made()) + [StopAfterPoll]
    {
      Call(StopAfterPoll);
      running := false;
    }
  }

  /** One turn of the run loop. */
  datatype Round =
    | Rebalance(part: Partition)
    | StopPolled(part: Partition)
    | Record(part: Partition, handler: seq<ConsumerEvent>, tail: seq<ConsumerEvent>, ok: bool, goesOn: bool)

  function RoundCalls(r: Round): seq<ConsumerEvent> {
    match r
    case Rebalance(part) => [Assign(part)]
    case StopPolled(part) => [Poll(part), StopAfterPoll]
    case Record(part, handler, tail, _, _) => [Poll(part)] + handler + tail
  }

  ghost predicate IsRound(r: Round) {
    r.Record? ==> IsHandler(r.handler, r.ok) && IsTail(r.tail, r.ok, r.goesOn)
  }

  function AllRounds(rounds: seq<Round>): seq<ConsumerEvent> {
    if rounds == [] then [] else AllRounds(rounds[..|rounds| - 1]) + RoundCalls(rounds[|rounds| - 1])
  }

  ghost predicate GoodRounds(rounds: seq<Round>) {
    rounds == [] || (GoodRounds(rounds[..|rounds| - 1]) && IsRound(rounds[|rounds| - 1]))
  }

  lemma PolledCalls(made: seq<ConsumerEvent>, r: Round)
    requires r.Record?
    ensures made + RoundCalls(r) == made + [Poll(r.part)] + r.handler + r.tail
  {
    Associate(made, [Poll(r.part)] + r.handler, r.tail);
    Associate(made, [Poll(r.part)], r.handler);
  }

  lemma OneMoreRound(rounds: seq<Round>, r: Round)
    requires GoodRounds(rounds) && IsRound(r)
    ensures AllRounds(rounds + [r]) == AllRounds(rounds) + RoundCalls(r) && GoodRounds(rounds + [r])
  {
    assert (rounds + [r])[..|rounds|] == rounds;
  }
}
