/** The two results the pipeline is for: committed offsets never pass an unsettled record, and
when everything has been published and consumed, every recipient of every message and every
recall has been reached, has it stored, or is covered by the DLQ. */
module Quiescence {
  import opened PipelineState
  import opened PipelineGrowth
  import opened OutboxSafety
  import opened OutboxTheorems
  import opened PushSafety
  import opened PushSteps

  lemma InitialPushInv(cfg: Config)
    ensures PushInvariant(Initial(cfg))
  {
  }

  /** Commit-prefix safety: in every reachable state, every record below a committed offset
  exists and is settled. */
  lemma CommitPrefixSafety(cfg: Config, es: seq<Event>, p: Partition, i: nat)
    requires Runs(Initial(cfg), es)
    ensures var s := After(Initial(cfg), es);
            i < CommittedOf(s.kafka, p) ==>
              i < |LogOf(s.kafka, p)| && EntrySettled(s, p, i, LogOf(s.kafka, p)[i])
  {
    InitialPushInv(cfg);
    RunKeepsPushInv(Initial(cfg), es);
    var s := After(Initial(cfg), es);
    if p in s.kafka.committed { assert PrefixSettled(s, p, s.kafka.committed[p]); }
  }

  lemma Resumes(s: State, c: nat, p: Partition)
    ensures var first := CommittedOf(s.kafka, p);
            var back := ConsumerApply(ConsumerApply(s, c, Restart), c, Assign(p));
            && (ConsumerEnabled(back, c, Poll(p)) <==> first < |LogOf(s.kafka, p)|)
            && (ConsumerEnabled(back, c, Poll(p)) ==>
                  ConsumerOf(ConsumerApply(back, c, Poll(p)), c).phase == Polled(p, first))
  {
    var s1 := ConsumerApply(s, c, Restart);
    assert ConsumerOf(s1, c) == Consumer(map[], Ready);
    var back := ConsumerApply(s1, c, Assign(p));
    assert back.kafka == s.kafka && ConsumerOf(back, c) == Consumer(map[p := CommittedOf(s.kafka, p)], Ready);
  }

  /** A worker that crashed or lost the partition takes up exactly the first record that is not committed,
  if there is one, and every record before it is settled. */
  lemma ResumesExactly(cfg: Config, es: seq<Event>, c: nat, p: Partition)
    requires Runs(Initial(cfg), es)
    ensures var s := After(Initial(cfg), es);
            var first := CommittedOf(s.kafka, p);
            var back := ConsumerApply(ConsumerApply(s, c, Restart), c, Assign(p));
            && (ConsumerEnabled(back, c, Poll(p)) <==> first < |LogOf(s.kafka, p)|)
            && (ConsumerEnabled(back, c, Poll(p)) ==>
                  ConsumerOf(ConsumerApply(back, c, Poll(p)), c).phase == Polled(p, first))
            && PrefixSettled(s, p, first)
  {
    Resumes(After(Initial(cfg), es), c, p);
    InitialPushInv(cfg);
    RunKeepsPushInv(Initial(cfg), es);
  }

  /** No outbox row is waiting and every consumed partition is committed to its end. */
  ghost predicate Quiet(s: State) {
    && (forall id :: id in s.db.outbox ==> s.db.outbox[id].status in {PUBLISHED, DEAD})
    && (forall p :: p in s.kafka.logs && p.topic in {Single, Group, Retry} ==>
          CommittedOf(s.kafka, p) == |s.kafka.logs[p]|)
  }

  lemma QuietSettled(s: State, p: Partition, i: nat)
    requires PushInvariant(s) && Quiet(s)
    requires p in s.kafka.logs && p.topic in {Single, Group, Retry} && i < |s.kafka.logs[p]|
    ensures EntrySettled(s, p, i, s.kafka.logs[p][i])
  {
    assert PrefixSettled(s, p, s.kafka.committed[p]);
    assert LogOf(s.kafka, p)[i] == s.kafka.logs[p][i];
  }

  /** Following retry records forward in time: each re-targets the same user, and each is settled
  by something later, so the chain ends in a resolution. */
  lemma {:induction false} Drained(s: State, stamp: nat, u: nat, d: Data)
    requires PushInvariant(s) && Quiet(s) && UserSettled(s, stamp, u, d)
    requires u != 0 && (d.toUser == 0 || d.toUser == u)
    ensures Resolved(s, u, d)
    decreases s.kafka.stamp - stamp
  {
    if !Resolved(s, u, d) {
      var sd := Scoped(u, d);
      var p, i :| p in s.kafka.logs && p.topic == Retry && 0 <= i < |s.kafka.logs[p]|
                  && s.kafka.logs[p][i].payload == Parsed(sd) && s.kafka.logs[p][i].stamp > stamp;
      var e := s.kafka.logs[p][i];
      QuietSettled(s, p, i);
      assert Route(Retry, e.payload) == ToUser(u);
      Drained(s, e.stamp, u, sd);
    }
  }

  /** Single: the addressee. Group: whoever belonged to the group at the commit and still does,
  other than a skipped sender. */
  predicate Recipient(s: State, m: nat, u: nat)
    requires m in s.db.messages
  {
    var d := s.db.messages[m].data;
    u != 0
    && if d.groupId == 0 then u == d.toUser
       else Steady(s.db, s.kafka.stamp, m, u) && !(s.cfg.skipSender && u == d.fromUser)
  }

  /** A published or dead event has reached every recipient of its message. */
  lemma EventResolved(s: State, id: nat, u: nat)
    requires OutboxInv(s) && PushInvariant(s) && Quiet(s)
    requires id in s.db.outbox && s.db.outbox[id].aggregateId in s.db.messages
    requires Recipient(s, s.db.outbox[id].aggregateId, u)
    requires s.db.outbox[id].payload.Parsed?
    ensures Resolved(s, u, s.db.outbox[id].payload.data)
  {
    var row := s.db.outbox[id];
    var m := row.aggregateId;
    assert RowInv(s, id) && MessageInv(s.db, m);
    var d := row.payload.data;
    if row.status == PUBLISHED {
      var since: int := s.db.messages[m].since;
      var p, i :| p in s.kafka.logs && p.topic == row.topic && 0 <= i < |s.kafka.logs[p]|
                  && s.kafka.logs[p][i].payload == row.payload && s.kafka.logs[p][i].stamp > since - 1;
      QuietSettled(s, p, i);
      EntryResolved(s, p, i, u, m);
    }
  }

  lemma EntryResolved(s: State, p: Partition, i: nat, u: nat, m: nat)
    requires OutboxInv(s) && PushInvariant(s) && Quiet(s)
    requires p in s.kafka.logs && i < |s.kafka.logs[p]| && s.kafka.logs[p][i].payload.Parsed?
    requires EntrySettled(s, p, i, s.kafka.logs[p][i])
    requires m in s.db.messages && Recipient(s, m, u)
    requires var e := s.kafka.logs[p][i];
             && e.stamp >= s.db.messages[m].since && p.topic == TopicFor(s.db.messages[m].data)
             && (e.payload.data == s.db.messages[m].data || e.payload.data == s.db.messages[m].data.(recalled := true))
    ensures Resolved(s, u, s.kafka.logs[p][i].payload.data)
  {
    var e := s.kafka.logs[p][i];
    var d := e.payload.data;
    assert MessageInv(s.db, m);
    match Route(p.topic, e.payload)
    case ToDlq =>
    case ToUser(v) => Drained(s, e.stamp, u, d);
    case ToGroup(g) =>
      assert Steady(s.db, e.stamp, d.messageId, u);
      Drained(s, e.stamp, u, d);
  }

  lemma MessageIdIs(cfg: Config, es: seq<Event>, m: nat)
    requires Runs(Initial(cfg), es) && m in After(Initial(cfg), es).db.messages
    ensures After(Initial(cfg), es).db.messages[m].data.messageId == m
  {
    InitialOutboxInv(cfg);
    RunKeepsOutboxInv(Initial(cfg), es);
    assert MessageInv(After(Initial(cfg), es).db, m);
  }

  /** Whoever the handler of a record fanned it out to, member or not by now, is resolved. */
  lemma ServedResolved(cfg: Config, es: seq<Event>, p: Partition, i: nat, u: nat)
    requires Runs(Initial(cfg), es) && Quiet(After(Initial(cfg), es))
    requires (p, i) in After(Initial(cfg), es).fx.served && u in After(Initial(cfg), es).fx.served[(p, i)]
    ensures var s := After(Initial(cfg), es);
            && i < |LogOf(s.kafka, p)| && LogOf(s.kafka, p)[i].payload.Parsed?
            && var d := LogOf(s.kafka, p)[i].payload.data;
            (u != 0 && (d.toUser == 0 || d.toUser == u) ==> Resolved(s, u, d))
  {
    var s := After(Initial(cfg), es);
    InitialPushInv(cfg);
    RunKeepsPushInv(Initial(cfg), es);
    assert ServedWell(s, p, i, s.fx.served[(p, i)]);
    var e := LogOf(s.kafka, p)[i];
    if u != 0 && (e.payload.data.toUser == 0 || e.payload.data.toUser == u) { Drained(s, e.stamp, u, e.payload.data); }
  }

  /** Quiescence: in every reachable quiet state, every recipient of every committed message has been
  reached with the message, and with its recall if it was recalled, or has acknowledged the message. */
  lemma QuiescenceTheorem(cfg: Config, es: seq<Event>, m: nat, u: nat)
    requires Runs(Initial(cfg), es) && Quiet(After(Initial(cfg), es))
    requires m in After(Initial(cfg), es).db.messages && Recipient(After(Initial(cfg), es), m, u)
    ensures var s := After(Initial(cfg), es);
            && Resolved(s, u, s.db.messages[m].data)
            && (s.db.messages[m].recallEvent.Some? ==> Resolved(s, u, s.db.messages[m].data.(recalled := true)))
  {
    var s := After(Initial(cfg), es);
    InitialPushInv(cfg);
    InitialOutboxInv(cfg);
    RunKeepsPushInv(Initial(cfg), es);
    RunKeepsOutboxInv(Initial(cfg), es);
    assert MessageInv(s.db, m) && RowInv(s, m);
    EventResolved(s, m, u);
    if s.db.messages[m].recallEvent.Some? {
      var id := s.db.messages[m].recallEvent.value;
      assert RowInv(s, id);
      EventResolved(s, id, u);
    }
  }
}
