/** Whom a message is for, told by the events of the run alone: who was in the group when it was sent
and has not left since. */
module Audience {
  import opened PipelineState
  import opened PipelineGrowth
  import opened OutboxTheorems
  import opened PushSafety
  import opened PushSteps
  import opened Quiescence

  predicate Enters(e: Event, g: nat, u: nat) {
    e == OnDb(CreateGroup(g, u)) || e == OnDb(Join(g, u))
  }

  ghost predicate Creator(es: seq<Event>, g: nat, u: nat) {
    OnDb(CreateGroup(g, u)) in es
  }

  /** Event `e`, coming after `es`, takes `u` out of the group. */
  ghost predicate Goes(es: seq<Event>, e: Event, g: nat, u: nat) {
    e == OnDb(Leave(g, u)) || (e == OnDb(OwnerLeave(g)) && Creator(es, g, u))
  }

  /** Nothing from event `i` on takes `u` out of the group. */
  ghost predicate Stays(es: seq<Event>, i: nat, g: nat, u: nat) {
    forall j :: i <= j < |es| ==> !Goes(es[..j], es[j], g, u)
  }

  /** At the end of the run `u` is in the group: came in, and has not left since. */
  ghost predicate Belongs(es: seq<Event>, g: nat, u: nat) {
    exists i :: 0 <= i < |es| && Enters(es[i], g, u) && Stays(es, i + 1, g, u)
  }

  lemma StaysAppend(es: seq<Event>, e: Event, i: nat, g: nat, u: nat)
    requires i <= |es|
    ensures Stays(es + [e], i, g, u) <==> Stays(es, i, g, u) && !Goes(es, e, g, u)
  {
    var es' := es + [e];
    assert es'[..|es|] == es && es'[|es|] == e;
    forall j | i <= j < |es| ensures es'[..j] == es[..j] && es'[j] == es[j] {}
    if Stays(es', i, g, u) {
      assert !Goes(es'[..|es|], es'[|es|], g, u);
      forall j | i <= j < |es| ensures !Goes(es[..j], es[j], g, u) { assert !Goes(es'[..j], es'[j], g, u); }
    }
  }

  lemma BelongsAppend(es: seq<Event>, e: Event, g: nat, u: nat)
    ensures Belongs(es + [e], g, u) <==> Enters(e, g, u) || (Belongs(es, g, u) && !Goes(es, e, g, u))
  {
    var es' := es + [e];
    forall i | 0 <= i < |es| ensures es'[i] == es[i] && (Stays(es', i + 1, g, u) <==>
                                                         Stays(es, i + 1, g, u) && !Goes(es, e, g, u))
    {
      StaysAppend(es, e, i + 1, g, u);
    }
    if Enters(e, g, u) { assert Enters(es'[|es|], g, u) && Stays(es', |es| + 1, g, u); }
    if Belongs(es, g, u) && !Goes(es, e, g, u) {
      var i :| 0 <= i < |es| && Enters(es[i], g, u) && Stays(es, i + 1, g, u);
      assert Enters(es'[i], g, u) && Stays(es', i + 1, g, u);
    }
  }

  // ---------------------------------------------------------------- owners and members

  /** A group has one creator, who owns it while it is owned. */
  ghost predicate OwnersInv(es: seq<Event>, db: Db) {
    && (forall g, u :: Creator(es, g, u) ==> g in db.groups)
    && (forall g, u :: g in db.owners ==> (Creator(es, g, u) <==> u == db.owners[g]))
  }

  /** Only database events touch groups, owners and messages. */
  lemma OtherEvent(s: State, e: Event)
    requires Enabled(s, e) && !e.OnDb?
    ensures var db' := Apply(s, e).db;
            db'.groups == s.db.groups && db'.owners == s.db.owners && db'.messages == s.db.messages
    ensures Apply(s, e).kafka.stamp >= s.kafka.stamp && Apply(s, e).cfg == s.cfg
  {
    match e {
      case OnConsumer(c, k) => ConsumerLeaves(s, c, k);
      case OnPublisher(w, p) => PublisherLeaves(s, w, p);
      case _ =>
    }
  }

  lemma ConsumerLeaves(s: State, c: nat, e: ConsumerEvent)
    requires ConsumerEnabled(s, c, e)
    ensures var s' := ConsumerApply(s, c, e);
            s'.db == s.db && s'.kafka.stamp >= s.kafka.stamp && s'.cfg == s.cfg
  {
  }

  lemma PublisherLeaves(s: State, w: nat, e: PublisherEvent)
    requires PublisherEnabled(s, w, e)
    ensures var s' := PublisherApply(s, w, e);
            && s'.db.groups == s.db.groups && s'.db.owners == s.db.owners && s'.db.messages == s.db.messages
            && s'.kafka.stamp >= s.kafka.stamp && s'.cfg == s.cfg
  {
  }

  lemma OwnersStep(es: seq<Event>, s: State, e: Event)
    requires Enabled(s, e) && OwnersInv(es, s.db)
    ensures OwnersInv(es + [e], Apply(s, e).db)
  {
    forall g, u ensures Creator(es + [e], g, u) <==> Creator(es, g, u) || e == OnDb(CreateGroup(g, u)) {}
    if !e.OnDb? { OtherEvent(s, e); }
    assert s.db.groups.Keys <= Apply(s, e).db.groups.Keys;
  }

  lemma {:induction false} OwnersHold(cfg: Config, es: seq<Event>)
    requires Runs(Initial(cfg), es)
    ensures OwnersInv(es, After(Initial(cfg), es).db)
    decreases |es|
  {
    if es != [] {
      var front, e := LastStep(cfg, es);
      OwnersHold(cfg, front);
      OwnersStep(front, After(Initial(cfg), front), e);
    }
  }

  lemma MemberStep(es: seq<Event>, s: State, e: Event, g: nat, u: nat)
    requires Enabled(s, e) && OwnersInv(es, s.db)
    ensures u in Members(Apply(s, e).db, g) <==> Enters(e, g, u) || (u in Members(s.db, g) && !Goes(es, e, g, u))
  {
    if e.OnDb? { MemberDbStep(es, s.db, s.kafka.stamp, e.db, g, u); } else { OtherEvent(s, e); }
  }

  lemma MemberDbStep(es: seq<Event>, db: Db, stamp: nat, e: DbEvent, g: nat, u: nat)
    requires DbEnabled(db, e) && OwnersInv(es, db)
    ensures u in Members(DbApply(db, stamp, e), g) <==>
              Enters(OnDb(e), g, u) || (u in Members(db, g) && !Goes(es, OnDb(e), g, u))
  {
  }

  /** The membership table is the history of entering and leaving. */
  lemma {:induction false} MemberIff(cfg: Config, es: seq<Event>, g: nat, u: nat)
    requires Runs(Initial(cfg), es)
    ensures u in Members(After(Initial(cfg), es).db, g) <==> Belongs(es, g, u)
    decreases |es|
  {
    if es != [] {
      var front, e := LastStep(cfg, es);
      MemberIff(cfg, front, g, u);
      OwnersHold(cfg, front);
      MemberStep(front, After(Initial(cfg), front), e, g, u);
      BelongsAppend(front, e, g, u);
    }
  }

  // ---------------------------------------------------------------- recipients

  lemma SteadyStep(es: seq<Event>, s: State, e: Event, m: nat, u: nat)
    requires Enabled(s, e) && OwnersInv(es, s.db) && BaseInv(s) && m in s.db.messages
    ensures var s', g := Apply(s, e), s.db.messages[m].data.groupId;
            && m in s'.db.messages && s'.db.messages[m].data == s.db.messages[m].data
            && (Steady(s'.db, s'.kafka.stamp, m, u) <==>
                Steady(s.db, s.kafka.stamp, m, u) && !Goes(es, e, g, u))
  {
    if e.OnDb? { SteadyDbStep(es, s.db, s.kafka.stamp, e.db, m, u); } else { OtherEvent(s, e); }
  }

  /** Whoever comes back has a new episode, so is not steady for what was sent before. */
  lemma SteadyDbStep(es: seq<Event>, db: Db, stamp: nat, e: DbEvent, m: nat, u: nat)
    requires DbEnabled(db, e) && OwnersInv(es, db) && EpisodesBelow(db) && m in db.messages
    requires db.messages[m].since <= stamp
    ensures var db', g := DbApply(db, stamp, e), db.messages[m].data.groupId;
            && m in db'.messages && db'.messages[m].data == db.messages[m].data
            && (Steady(db', stamp, m, u) <==> Steady(db, stamp, m, u) && !Goes(es, OnDb(e), g, u))
  {
    var db', g := DbApply(db, stamp, e), db.messages[m].data.groupId;
    MemberDbStep(es, db, stamp, e, g, u);
    assert db'.messages[m].audience == db.messages[m].audience && db'.messages[m].since == db.messages[m].since;
    if u in Members(db, g) && u in Members(db', g) { assert Members(db', g)[u] == Members(db, g)[u]; }
  }

  /** A member at the commit of a message who has not left since is who the state calls steady. */
  lemma {:induction false} SteadyIff(cfg: Config, es: seq<Event>, i: nat, d: Data, u: nat)
    requires Runs(Initial(cfg), es) && i < |es| && es[i] == OnDb(CommitSend(d))
    ensures var s := After(Initial(cfg), es);
            && d.messageId in s.db.messages && s.db.messages[d.messageId].data == d
            && (Steady(s.db, s.kafka.stamp, d.messageId, u) <==>
                Belongs(es[..i], d.groupId, u) && Stays(es, i, d.groupId, u))
    decreases |es|
  {
    var front, e := LastStep(cfg, es);
    var s := After(Initial(cfg), front);
    InitialPushInv(cfg);
    RunKeepsPushInv(Initial(cfg), front);
    if i < |front| {
      assert front[i] == es[i] && front[..i] == es[..i];
      SteadyIff(cfg, front, i, d, u);
      OwnersHold(cfg, front);
      SteadyStep(front, s, e, d.messageId, u);
      StaysAppend(front, e, i, d.groupId, u);
    } else {
      assert es[..i] == front && e == OnDb(CommitSend(d));
      MemberIff(cfg, front, d.groupId, u);
      StaysAppend(front, e, i, d.groupId, u);
    }
  }

  ghost predicate WasRecalled(es: seq<Event>, m: nat) {
    exists id :: OnDb(CommitRecall(m, id)) in es
  }

  lemma RecallStep(s: State, e: Event, m: nat)
    requires Enabled(s, e)
    ensures var recalled := m in s.db.messages && s.db.messages[m].recallEvent.Some?;
            var db' := Apply(s, e).db;
            (m in db'.messages && db'.messages[m].recallEvent.Some?) <==>
              recalled || exists id :: e == OnDb(CommitRecall(m, id))
  {
    if !e.OnDb? { OtherEvent(s, e); }
    if e.OnDb? && e.db.CommitRecall? && e.db.messageId == m { assert e == OnDb(CommitRecall(m, e.db.eventId)); }
  }

  /** A message is recalled if and only if a recall of it was committed. */
  lemma {:induction false} RecalledIff(cfg: Config, es: seq<Event>, m: nat)
    requires Runs(Initial(cfg), es)
    ensures var db := After(Initial(cfg), es).db;
            (m in db.messages && db.messages[m].recallEvent.Some?) <==> WasRecalled(es, m)
    decreases |es|
  {
    if es != [] {
      var front, e := LastStep(cfg, es);
      RecalledIff(cfg, front, m);
      RecallStep(After(Initial(cfg), front), e, m);
      forall id ensures OnDb(CommitRecall(m, id)) in es <==>
                          OnDb(CommitRecall(m, id)) in front || e == OnDb(CommitRecall(m, id)) {}
    }
  }

  lemma RealUser(cfg: Config, es: seq<Event>, n: nat)
    requires Runs(Initial(cfg), es) && n < |es|
    ensures forall g :: !Enters(es[n], g, 0)
    ensures es[n].OnDb? && es[n].db.CommitSend? ==> Addressed(es[n].db.data)
  {
    RunsPrefix(Initial(cfg), es, n);
  }

  /** The message sent by event `i` of the run is for `u`. */
  ghost predicate SentFor(cfg: Config, es: seq<Event>, i: nat, d: Data, u: nat)
    requires i < |es|
  {
    if d.groupId == 0 then u == d.toUser
    else Belongs(es[..i], d.groupId, u) && Stays(es, i, d.groupId, u) && !(cfg.skipSender && u == d.fromUser)
  }

  /** Whenever everything is at rest, everybody a message was sent for has been reached with it, or has
  an acknowledged row for it; and likewise with its recall. */
  lemma EverybodyReached(cfg: Config, es: seq<Event>, i: nat, d: Data, u: nat)
    requires Runs(Initial(cfg), es) && Quiet(After(Initial(cfg), es))
    requires i < |es| && es[i] == OnDb(CommitSend(d)) && SentFor(cfg, es, i, d, u)
    ensures Resolved(After(Initial(cfg), es), u, d)
    ensures WasRecalled(es, d.messageId) ==> Resolved(After(Initial(cfg), es), u, d.(recalled := true))
  {
    SteadyIff(cfg, es, i, d, u);
    RecalledIff(cfg, es, d.messageId);
    RealUser(cfg, es, i);
    if d.groupId != 0 {
      var n :| 0 <= n < i && Enters(es[..i][n], d.groupId, u);
      RealUser(cfg, es, n);
    }
    RunKeepsConfig(Initial(cfg), es);
    QuiescenceTheorem(cfg, es, d.messageId, u);
  }

  lemma {:induction false} RunKeepsConfig(s: State, es: seq<Event>)
    requires Runs(s, es)
    ensures After(s, es).cfg == s.cfg
    decreases |es|
  {
    if es != [] {
      if !es[0].OnDb? { OtherEvent(s, es[0]); }
      RunKeepsConfig(Apply(s, es[0]), es[1..]);
    }
  }
}
