/** Each call a push worker makes keeps the push invariant. */
module PushSteps {
  import opened PipelineState
  import opened PipelineGrowth
  import opened PushSafety

  /** The result of a step by worker `c`, apart from the other workers. */
  ghost predicate ActorOk(s': State, c: nat) {
    ServedInv(s') && CommittedInv(s') && c in s'.consumers && ConsumerInv(s', s'.consumers[c])
  }

  /** Steps that keep the record of served users and the committed offsets. */
  lemma QuietStep(s: State, s': State, c: nat)
    requires PushInvariant(s) && Grows(s, s')
    requires s'.fx.served == s.fx.served && s'.kafka.committed == s.kafka.committed
    requires c in s'.consumers && PhaseInv(s', s'.consumers[c])
    requires var me, me' := ConsumerOf(s, c), s'.consumers[c];
             !me'.phase.Stopped? ==>
               !me.phase.Stopped? && forall p :: p in me'.position && !Busy(me'.phase, p) ==>
                 p in me.position && me'.position[p] == me.position[p] && !Busy(me.phase, p)
    ensures ActorOk(s', c)
  {
    ServedStays(s, s');
    CommittedStays(s, s');
    if !s'.consumers[c].phase.Stopped? { PositionsStay(s, s', ConsumerOf(s, c), s'.consumers[c]); }
  }

  lemma AssignKeeps(s: State, c: nat, part: Partition)
    requires PushInvariant(s) && ConsumerEnabled(s, c, Assign(part))
    ensures ActorOk(ConsumerApply(s, c, Assign(part)), c)
  {
    var s' := ConsumerApply(s, c, Assign(part));
    ConsumerGrows(s, c, Assign(part));
    ServedStays(s, s');
    CommittedStays(s, s');
    var me' := s'.consumers[c];
    forall p | p in me'.position ensures PrefixSettled(s', p, me'.position[p]) {
      if p != part { PrefixSettledStays(s, s', p, me'.position[p]); }
    }
  }

  lemma PollKeeps(s: State, c: nat, p: Partition)
    requires PushInvariant(s) && ConsumerEnabled(s, c, Poll(p))
    ensures ActorOk(ConsumerApply(s, c, Poll(p)), c)
  {
    var s' := ConsumerApply(s, c, Poll(p));
    ConsumerGrows(s, c, Poll(p));
    ServedStays(s, s');
    PrefixSettledStays(s, s', p, ConsumerOf(s, c).position[p]);
    QuietStep(s, s', c);
  }

  // ---------------------------------------------------------------- starting a record

  lemma {:induction false} FanOutMembers(members: seq<nat>, sender: nat, skip: bool, u: nat)
    ensures u in FanOut(members, sender, skip) <==> u in members && !(skip && u == sender)
  {
    if members != [] {
      FanOutMembers(members[1..], sender, skip, u);
      assert u in members <==> u == members[0] || u in members[1..];
    }
  }

  lemma DispatchJob(s: State, c: nat, members: seq<nat>)
    requires PushInvariant(s) && ConsumerEnabled(s, c, Dispatch(members))
    ensures var ph := ConsumerOf(s, c).phase;
            var ph' := DispatchTo(s, ph.part, ph.offset, LogOf(s.kafka, ph.part)[ph.offset].payload, members);
            ph'.Fanning? ==> JobInv(s, ph'.job) && ph'.push == Looking
  {
    var ph := ConsumerOf(s, c).phase;
    var e := LogOf(s.kafka, ph.part)[ph.offset];
    var r := Route(ph.part.topic, e.payload);
    if r.ToGroup? && members != [] {
      var d := e.payload.data;
      var targets := FanOut(members, d.fromUser, s.cfg.skipSender);
      forall u | Steady(s.db, e.stamp, d.messageId, u) && s.db.messages[d.messageId].data.groupId == r.group
                 && !(s.cfg.skipSender && u == d.fromUser)
        ensures u in targets
      {
        assert u in Members(s.db, r.group).Keys;
        assert u in members;
        FanOutMembers(members, d.fromUser, s.cfg.skipSender, u);
      }
    }
  }

  lemma DispatchKeeps(s: State, c: nat, members: seq<nat>)
    requires PushInvariant(s) && ConsumerEnabled(s, c, Dispatch(members))
    ensures ActorOk(ConsumerApply(s, c, Dispatch(members)), c)
  {
    var s' := ConsumerApply(s, c, Dispatch(members));
    ConsumerGrows(s, c, Dispatch(members));
    ServedStays(s, s');
    var me, me' := ConsumerOf(s, c), s'.consumers[c];
    assert ConsumerInv(s, me);
    InFlightStays(s, s', me', me.phase.part, me.phase.offset);
    DispatchJob(s, c, members);
    if me'.phase.Fanning? { JobInvStays(s, s', me'.phase.job); }
    QuietStep(s, s', c);
  }

  // ---------------------------------------------------------------- pushing to one user

  /** After pushToUser returned `ok` for the first user of the list. */
  lemma UserDoneInv(s: State, job: Job, ok: bool)
    requires JobInv(s, job) && job.todo != []
    requires ok ==> UserSettled(s, LogOf(s.kafka, job.part)[job.offset].stamp, job.todo[0], job.data)
    ensures var ph := UserDone(job, ok); JobInv(s, ph.job) && PushInv(s, ph.job, ph.push)
  {
    var job' := UserDone(job, ok).job;
    assert forall u :: u in job.todo <==> u == job.todo[0] || u in job'.todo;
  }

  /** A push call keeps the record in flight and the job, and needs only its own phase checked. */
  lemma PushStep(s: State, c: nat, e: ConsumerEvent)
    requires PushInvariant(s) && ConsumerEnabled(s, c, e) && ConsumerOf(s, c).phase.Fanning?
    requires !e.Restart? && !e.Finish?
    ensures var s' := ConsumerApply(s, c, e);
            var job := ConsumerOf(s, c).phase.job;
            && Grows(s, s') && ServedInv(s') && JobInv(s', job)
            && InFlight(s', s'.consumers[c], job.part, job.offset)
            && s'.consumers[c].position == ConsumerOf(s, c).position
            && s'.fx.served == s.fx.served && s'.kafka.committed == s.kafka.committed
            && PushInv(s', job, ConsumerOf(s, c).phase.push)
            && BaseInv(s')
  {
    var s' := ConsumerApply(s, c, e);
    var me := ConsumerOf(s, c);
    ConsumerGrows(s, c, e);
    PushStepFrame(s, c, e);
    ServedStays(s, s');
    assert ConsumerInv(s, me);
    JobInvStays(s, s', me.phase.job);
    PushInvStays(s, s', me.phase.job, me.phase.push);
    InFlightStays(s, s', me, me.phase.job.part, me.phase.job.offset);
  }

  lemma PushStepFrame(s: State, c: nat, e: ConsumerEvent)
    requires ConsumerEnabled(s, c, e) && ConsumerOf(s, c).phase.Fanning?
    requires !e.Restart? && !e.Finish?
    ensures var s' := ConsumerApply(s, c, e);
            && s'.fx.served == s.fx.served && s'.kafka.committed == s.kafka.committed
            && c in s'.consumers && s'.consumers[c].position == ConsumerOf(s, c).position
            && s'.consumers[c].phase.Fanning?
            && s'.consumers[c].phase.job.part == ConsumerOf(s, c).phase.job.part
            && s'.consumers[c].phase.job.offset == ConsumerOf(s, c).phase.job.offset
  {
  }

  /** pushToUser returns true only when the user is settled. */
  lemma UserResult(s: State, c: nat, e: ConsumerEvent)
    requires PushInvariant(s) && ConsumerEnabled(s, c, e) && ConsumerOf(s, c).phase.Fanning?
    requires e.ClearRetry? || (e.Requeue? && e.ok) || e.SaveOffline?
    requires e.SaveOffline? ==> (if ConsumerOf(s, c).phase.push.SavingOffline? then e.ok
                                 else ConsumerOf(s, c).phase.push.dlqOk)
    ensures var job := ConsumerOf(s, c).phase.job;
            var s' := ConsumerApply(s, c, e);
            JobInv(s', job) && UserSettled(s', LogOf(s'.kafka, job.part)[job.offset].stamp, job.todo[0], job.data)
  {
    var ph := ConsumerOf(s, c).phase;
    var s' := ConsumerApply(s, c, e);
    PushStep(s, c, e);
    assert ConsumerInv(s, ConsumerOf(s, c));
    if e.Requeue? {
      StampAt(s.kafka, ph.job.part, ph.job.offset);
      LogOfGrows(s.kafka, s'.kafka, ph.job.part);
      ProduceGrows(s.kafka, Retry, e.index, Parsed(Scoped(ph.job.todo[0], ph.job.data)), true);
      assert InLogAfter(s'.kafka, Retry, Parsed(Scoped(ph.job.todo[0], ph.job.data)), s.kafka.stamp - 1);
      LaterStamp(s'.kafka, Parsed(Scoped(ph.job.todo[0], ph.job.data)), s.kafka.stamp - 1,
                 LogOf(s.kafka, ph.job.part)[ph.job.offset].stamp);
    }
  }

  lemma LaterStamp(k: Kafka, payload: Payload, since: int, earlier: nat)
    requires InLogAfter(k, Retry, payload, since) && earlier <= since
    ensures InLogAfter(k, Retry, payload, earlier)
  {
    var p, i :| p in k.logs && p.topic == Retry && 0 <= i < |k.logs[p]|
                && k.logs[p][i].payload == payload && k.logs[p][i].stamp > since;
  }

  /** The calls after which pushToUser returns. */
  lemma UserReturnKeeps(s: State, c: nat, e: ConsumerEvent)
    requires PushInvariant(s) && ConsumerEnabled(s, c, e)
    requires e.RefuseUser? || e.ClearRetry? || e.Requeue? || e.SaveOffline?
    ensures ActorOk(ConsumerApply(s, c, e), c)
  {
    var s' := ConsumerApply(s, c, e);
    var ph := ConsumerOf(s, c).phase;
    var ok := match e
      case RefuseUser => false
      case ClearRetry(_) => true
      case Requeue(ok, _) => ok
      case SaveOffline(ok, _) => if ph.push.SavingOffline? then ok else ph.push.dlqOk;
    PushStep(s, c, e);
    if ok { UserResult(s, c, e); }
    UserDoneInv(s', ph.job, ok);
    assert s'.consumers[c].phase == UserDone(ph.job, ok);
    QuietStep(s, s', c);
  }

  /** The calls inside pushToUser. */
  lemma UserCallKeeps(s: State, c: nat, e: ConsumerEvent)
    requires PushInvariant(s) && ConsumerEnabled(s, c, e)
    requires e.Lookup? || e.Deliver? || e.CountRetry? || e.SendDlq?
    ensures ActorOk(ConsumerApply(s, c, e), c)
  {
    var s' := ConsumerApply(s, c, e);
    var ph := ConsumerOf(s, c).phase;
    PushStep(s, c, e);
    if e.SendDlq? && e.ok {
      var payload := Parsed(Scoped(ph.job.todo[0], ph.job.data));
      ProduceGrows(s.kafka, Dlq, e.index, payload, true);
      assert InLogAfter(s'.kafka, Dlq, payload, s.kafka.stamp - 1);
      var p, i :| p in s'.kafka.logs && p.topic == Dlq && 0 <= i < |s'.kafka.logs[p]|
                  && s'.kafka.logs[p][i].payload == payload && s'.kafka.logs[p][i].stamp > s.kafka.stamp - 1;
      assert InLog(s'.kafka, Dlq, payload);
    }
    assert PushInv(s', ph.job, s'.consumers[c].phase.push);
    QuietStep(s, s', c);
  }

  // ---------------------------------------------------------------- finishing a record

  lemma RejectKeeps(s: State, c: nat, ok: bool, index: nat)
    requires PushInvariant(s) && ConsumerEnabled(s, c, Reject(ok, index))
    ensures ActorOk(ConsumerApply(s, c, Reject(ok, index)), c)
  {
    var s' := ConsumerApply(s, c, Reject(ok, index));
    ConsumerGrows(s, c, Reject(ok, index));
    ServedStays(s, s');
    var me, me' := ConsumerOf(s, c), s'.consumers[c];
    assert ConsumerInv(s, me);
    InFlightStays(s, s', me', me.phase.part, me.phase.offset);
    LogOfGrows(s.kafka, s'.kafka, me.phase.part);
    if ok {
      ProduceGrows(s.kafka, Dlq, index, me.phase.payload, ok);
      assert InLogAfter(s'.kafka, Dlq, me.phase.payload, s.kafka.stamp - 1);
      var p, i :| p in s'.kafka.logs && p.topic == Dlq && 0 <= i < |s'.kafka.logs[p]|
                  && s'.kafka.logs[p][i].payload == me.phase.payload && s'.kafka.logs[p][i].stamp > s.kafka.stamp - 1;
      assert InLog(s'.kafka, Dlq, me.phase.payload);
    }
    QuietStep(s, s', c);
  }

  lemma FinishServed(s: State, c: nat)
    requires PushInvariant(s) && ConsumerEnabled(s, c, Finish)
    ensures ServedInv(ConsumerApply(s, c, Finish))
  {
    var s' := ConsumerApply(s, c, Finish);
    ConsumerGrows(s, c, Finish);
    var job := ConsumerOf(s, c).phase.job;
    assert ConsumerInv(s, ConsumerOf(s, c));
    forall p, i: nat | (p, i) in s'.fx.served ensures ServedWell(s', p, i, s'.fx.served[(p, i)]) {
      if p == job.part && i == job.offset && job.failed == 0 {
        assert ServedWell(s, p, i, job.targets);
        ServedWellStays(s, s', p, i, job.targets);
      } else {
        ServedWellStays(s, s', p, i, s.fx.served[(p, i)]);
      }
    }
  }

  lemma FinishKeeps(s: State, c: nat)
    requires PushInvariant(s) && ConsumerEnabled(s, c, Finish)
    ensures ActorOk(ConsumerApply(s, c, Finish), c)
  {
    var s' := ConsumerApply(s, c, Finish);
    ConsumerGrows(s, c, Finish);
    FinishServed(s, c);
    CommittedStays(s, s');
    var me, me' := ConsumerOf(s, c), s'.consumers[c];
    var job := me.phase.job;
    assert ConsumerInv(s, me);
    InFlightStays(s, s', me', job.part, job.offset);
    JobInvStays(s, s', job);
    if job.failed == 0 {
      assert ServedWell(s', job.part, job.offset, s'.fx.served[(job.part, job.offset)]);
    }
    PositionsStay(s, s', me, me');
  }

  lemma CommitKeeps(s: State, c: nat, ok: bool, applied: bool)
    requires PushInvariant(s) && ConsumerEnabled(s, c, Commit(ok, applied))
    ensures ActorOk(ConsumerApply(s, c, Commit(ok, applied)), c)
  {
    var s' := ConsumerApply(s, c, Commit(ok, applied));
    ConsumerGrows(s, c, Commit(ok, applied));
    ServedStays(s, s');
    var me, me' := ConsumerOf(s, c), s'.consumers[c];
    assert ConsumerInv(s, me);
    var part, i := me.phase.part, me.phase.offset;
    assert PrefixSettled(s, part, i + 1);
    forall p | p in s'.kafka.committed ensures PrefixSettled(s', p, s'.kafka.committed[p]) {
      PrefixSettledStays(s, s', p, s'.kafka.committed[p]);
    }
    InFlightStays(s, s', me, part, i);
    forall p | p in me'.position && !Busy(me'.phase, p) ensures PrefixSettled(s', p, me'.position[p]) {
      PrefixSettledStays(s, s', p, me'.position[p]);
    }
  }

  lemma SeekKeeps(s: State, c: nat, ok: bool)
    requires PushInvariant(s) && ConsumerEnabled(s, c, Seek(ok))
    ensures ActorOk(ConsumerApply(s, c, Seek(ok)), c)
  {
    var s' := ConsumerApply(s, c, Seek(ok));
    ConsumerGrows(s, c, Seek(ok));
    ServedStays(s, s');
    CommittedStays(s, s');
    var me, me' := ConsumerOf(s, c), s'.consumers[c];
    assert ConsumerInv(s, me);
    if ok {
      forall p | p in me'.position ensures PrefixSettled(s', p, me'.position[p]) {
        PrefixSettledStays(s, s', p, me'.position[p]);
      }
    }
  }

  lemma RestartOrStopKeeps(s: State, c: nat, e: ConsumerEvent)
    requires PushInvariant(s) && ConsumerEnabled(s, c, e) && (e.Restart? || e.StopAfterPoll?)
    ensures ActorOk(ConsumerApply(s, c, e), c)
  {
    var s' := ConsumerApply(s, c, e);
    ConsumerGrows(s, c, e);
    ServedStays(s, s');
    CommittedStays(s, s');
  }

  // ---------------------------------------------------------------- all events

  lemma ActorKeeps(s: State, c: nat, e: ConsumerEvent)
    requires PushInvariant(s) && ConsumerEnabled(s, c, e)
    ensures ActorOk(ConsumerApply(s, c, e), c)
  {
    match e
    case Assign(p) => AssignKeeps(s, c, p);
    case Poll(p) => PollKeeps(s, c, p);
    case Restart => RestartOrStopKeeps(s, c, e);
    case StopAfterPoll => RestartOrStopKeeps(s, c, e);
    case Dispatch(members) => DispatchKeeps(s, c, members);
    case Reject(ok, index) => RejectKeeps(s, c, ok, index);
    case Finish => FinishKeeps(s, c);
    case Commit(ok, applied) => CommitKeeps(s, c, ok, applied);
    case Seek(ok) => SeekKeeps(s, c, ok);
    case Lookup(_) => UserCallKeeps(s, c, e);
    case Deliver(_, _) => UserCallKeeps(s, c, e);
    case CountRetry(_, _) => UserCallKeeps(s, c, e);
    case SendDlq(_, _) => UserCallKeeps(s, c, e);
    case _ => UserReturnKeeps(s, c, e);
  }

  lemma ConsumerEventKeeps(s: State, c: nat, e: ConsumerEvent)
    requires PushInvariant(s) && ConsumerEnabled(s, c, e)
    ensures PushInvariant(ConsumerApply(s, c, e))
  {
    var s' := ConsumerApply(s, c, e);
    ConsumerGrows(s, c, e);
    ActorKeeps(s, c, e);
    ConsumerFrame(s, c, e);
    forall b | b in s'.consumers ensures ConsumerInv(s', s'.consumers[b]) {
      if b != c { BystanderKeeps(s, s', s.consumers[b]); }
    }
  }

  lemma ConsumerFrame(s: State, c: nat, e: ConsumerEvent)
    requires ConsumerEnabled(s, c, e)
    ensures var s' := ConsumerApply(s, c, e);
            && s'.consumers.Keys == s.consumers.Keys + {c}
            && forall b :: b in s.consumers && b != c ==> s'.consumers[b] == s.consumers[b]
  {
  }

  lemma OtherEventKeepsPush(s: State, e: Event)
    requires PushInvariant(s) && Enabled(s, e) && !e.OnConsumer?
    ensures PushInvariant(Apply(s, e))
  {
    var s' := Apply(s, e);
    EveryEventGrows(s, e);
    OtherEventFrame(s, e);
    ServedStays(s, s');
    CommittedStays(s, s');
    forall b | b in s'.consumers ensures ConsumerInv(s', s'.consumers[b]) {
      BystanderKeeps(s, s', s.consumers[b]);
    }
  }

  lemma OtherEventFrame(s: State, e: Event)
    requires Enabled(s, e) && !e.OnConsumer?
    ensures var s' := Apply(s, e);
            s'.consumers == s.consumers && s'.fx.served == s.fx.served && s'.kafka.committed == s.kafka.committed
  {
  }

  lemma EventKeepsPushInv(s: State, e: Event)
    requires PushInvariant(s) && Enabled(s, e)
    ensures PushInvariant(Apply(s, e))
  {
    if e.OnConsumer? { ConsumerEventKeeps(s, e.c, e.ce); } else { OtherEventKeepsPush(s, e); }
  }

  lemma {:induction false} RunKeepsPushInv(s: State, es: seq<Event>)
    requires PushInvariant(s) && Runs(s, es)
    ensures PushInvariant(After(s, es))
    decreases |es|
  {
    if es != [] {
      EventKeepsPushInv(s, es[0]);
      RunKeepsPushInv(Apply(s, es[0]), es[1..]);
    }
  }
}
