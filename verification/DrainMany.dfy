/** Draining by several workers, each with partitions of its own, in any interleaving of their calls. */
module DrainMany {
  import opened PipelineState
  import opened Drain
  import opened DrainExact

  /** The workers and which of them each partition is assigned to. */
  datatype Team = Team(z: Scope, owner: map<Partition, nat>, workers: seq<nat>)

  ghost predicate TeamOk(t: Team) {
    && (forall i, j :: 0 <= i < j < |t.workers| ==> t.workers[i] != t.workers[j])
    && (forall p :: p in t.z.parts ==> p in t.owner && t.owner[p] in t.workers)
  }

  predicate Owns(t: Team, c: nat, p: Partition) {
    p in t.owner && t.owner[p] == c
  }

  // ---------------------------------------------------------------- one worker's view

  /** Where worker `c` stands in its own partitions, and where the others are committed. */
  ghost function PositionFor(t: Team, s: State, c: nat): map<Partition, nat> {
    map p | p in t.z.parts ::
      if Owns(t, c, p) && p in ConsumerOf(s, c).position then ConsumerOf(s, c).position[p] else CommittedOf(s.kafka, p)
  }

  /** The state as it would be if worker `c` were alone. */
  ghost function View(t: Team, s: State, c: nat): State {
    s.(consumers := s.consumers[c := Consumer(PositionFor(t, s, c), ConsumerOf(s, c).phase)])
  }

  /** Worker `c` is assigned exactly its own partitions, and works on one of them. */
  ghost predicate Assigned(t: Team, s: State, c: nat) {
    && (forall p :: p in t.z.parts ==> (p in ConsumerOf(s, c).position <==> Owns(t, c, p)))
    && (forall p :: AtWork(ConsumerOf(s, c).phase, p) ==> Owns(t, c, p))
  }

  ghost predicate TeamInv(t: Team, s: State) {
    TeamOk(t) && forall c :: c in t.workers ==> Assigned(t, s, c) && DrainInv(t.z, View(t, s, c), c)
  }

  lemma ViewHealthy(t: Team, s: State, c: nat, e: ConsumerEvent)
    requires Assigned(t, s, c) && Healthy(t.z, s, c, e)
    ensures Healthy(t.z, View(t, s, c), c, e)
  {
    assert ConsumerOf(View(t, s, c), c).phase == ConsumerOf(s, c).phase;
  }

  /** What a successful call leaves alone. */
  lemma CallLeaves(t: Team, s: State, c: nat, e: ConsumerEvent)
    requires Healthy(t.z, s, c, e)
    ensures var s' := ConsumerApply(s, c, e);
            && s'.cfg == s.cfg && s'.db == s.db && (forall p :: LogOf(s.kafka, p) <= LogOf(s'.kafka, p))
            && (!e.Commit? ==> s'.kafka.committed == s.kafka.committed)
            && (!e.Poll? ==> ConsumerOf(s', c).position == ConsumerOf(s, c).position)
  {
  }

  lemma CommitFrame(t: Team, s: State, c: nat, e: ConsumerEvent)
    requires Healthy(t.z, s, c, e) && e.Commit? && Assigned(t, s, c)
    ensures var s' := ConsumerApply(s, c, e);
            forall p :: !Owns(t, c, p) ==> CommittedOf(s'.kafka, p) == CommittedOf(s.kafka, p)
  {
    assert AtWork(ConsumerOf(s, c).phase, ConsumerOf(s, c).phase.part);
  }

  lemma ViewPosition(t: Team, s: State, c: nat, e: ConsumerEvent)
    requires Healthy(t.z, s, c, e) && Assigned(t, s, c)
    ensures PositionFor(t, ConsumerApply(s, c, e), c) ==
            if e.Poll? then PositionFor(t, s, c)[e.part := PositionFor(t, s, c)[e.part] + 1] else PositionFor(t, s, c)
  {
    CallLeaves(t, s, c, e);
    if e.Commit? { CommitFrame(t, s, c, e); }
  }

  lemma ViewRest(t: Team, s: State, c: nat, e: ConsumerEvent)
    requires Healthy(t.z, s, c, e) && Assigned(t, s, c) && ConsumerEnabled(View(t, s, c), c, e)
    ensures var v, s' := ConsumerApply(View(t, s, c), c, e), ConsumerApply(s, c, e);
            v == s'.(consumers := v.consumers) && ConsumerOf(v, c).phase == ConsumerOf(s', c).phase
  {
  }

  /** Of the workers only the caller changes, and only a poll moves it. */
  lemma OnlyCaller(z: Scope, s: State, c: nat, e: ConsumerEvent)
    requires Healthy(z, s, c, e)
    ensures var s' := ConsumerApply(s, c, e);
            && s'.consumers == s.consumers[c := ConsumerOf(s', c)]
            && ConsumerOf(s', c).position ==
               var position := ConsumerOf(s, c).position;
               if e.Poll? then position[e.part := position[e.part] + 1] else position
  {
  }

  /** A call does to the view what it does to the state. */
  lemma ViewApply(t: Team, s: State, c: nat, e: ConsumerEvent)
    requires Healthy(t.z, s, c, e) && Assigned(t, s, c)
    ensures Healthy(t.z, View(t, s, c), c, e)
    ensures ConsumerApply(View(t, s, c), c, e) == View(t, ConsumerApply(s, c, e), c)
  {
    ViewHealthy(t, s, c, e);
    ViewPosition(t, s, c, e);
    ViewRest(t, s, c, e);
    OnlyCaller(t.z, s, c, e);
    OnlyCaller(t.z, View(t, s, c), c, e);
  }

  // ---------------------------------------------------------------- every call keeps the invariant

  lemma CallerAssigned(t: Team, s: State, c: nat, e: ConsumerEvent)
    requires Healthy(t.z, s, c, e) && Assigned(t, s, c)
    ensures Assigned(t, ConsumerApply(s, c, e), c)
  {
    var s' := ConsumerApply(s, c, e);
    OnlyCaller(t.z, s, c, e);
    forall p | AtWork(ConsumerOf(s', c).phase, p) ensures Owns(t, c, p) {
      StaysAtWork(t.z, s, c, e, p);
    }
  }

  /** A call stays with the record, or starts on one of the caller's partitions. */
  lemma StaysAtWork(z: Scope, s: State, c: nat, e: ConsumerEvent, p: Partition)
    requires Healthy(z, s, c, e) && AtWork(ConsumerOf(ConsumerApply(s, c, e), c).phase, p)
    ensures AtWork(ConsumerOf(s, c).phase, p) ||
            (e.Poll? && e.part == p && p in z.parts && p in ConsumerOf(s, c).position)
  {
  }

  lemma CommittedBelow(z: Scope, s: State, c: nat, p: Partition)
    requires DrainInv(z, s, c) && p in z.parts
    ensures CommittedOf(s.kafka, p) <= |LogOf(s.kafka, p)|
  {
    assert PartOk(z, s, ConsumerOf(s, c), p);
  }

  lemma Bystander(t: Team, s: State, c: nat, e: ConsumerEvent, b: nat)
    requires Healthy(t.z, s, c, e) && Assigned(t, s, c) && b != c && Assigned(t, s, b)
    requires DrainInv(t.z, View(t, s, b), b) && DrainInv(t.z, View(t, ConsumerApply(s, c, e), c), c)
    ensures var s' := ConsumerApply(s, c, e); Assigned(t, s', b) && DrainInv(t.z, View(t, s', b), b)
  {
    var s' := ConsumerApply(s, c, e);
    CallSeen(t, s, c, e, b);
    BystanderView(t, s, s', c, b);
  }

  /** What another worker sees of a call. */
  lemma CallSeen(t: Team, s: State, c: nat, e: ConsumerEvent, b: nat)
    requires Healthy(t.z, s, c, e) && Assigned(t, s, c) && b != c
    ensures var s' := ConsumerApply(s, c, e);
            && ConsumerOf(s', b) == ConsumerOf(s, b) && s'.cfg == s.cfg && s'.db == s.db
            && (forall p :: LogOf(s.kafka, p) <= LogOf(s'.kafka, p))
            && (forall p :: !Owns(t, c, p) ==> CommittedOf(s'.kafka, p) == CommittedOf(s.kafka, p))
  {
    OnlyCaller(t.z, s, c, e);
    CallLeaves(t, s, c, e);
    if e.Commit? { CommitFrame(t, s, c, e); }
  }

  /** Another worker's view after logs have grown and somebody else's offsets were committed. */
  lemma BystanderView(t: Team, s: State, s': State, c: nat, b: nat)
    requires ConsumerOf(s', b) == ConsumerOf(s, b) && s'.cfg == s.cfg && s'.db == s.db && b != c
    requires Assigned(t, s, b) && DrainInv(t.z, View(t, s, b), b) && DrainInv(t.z, View(t, s', c), c)
    requires forall p :: LogOf(s.kafka, p) <= LogOf(s'.kafka, p)
    requires forall p :: !Owns(t, c, p) ==> CommittedOf(s'.kafka, p) == CommittedOf(s.kafka, p)
    ensures DrainInv(t.z, View(t, s', b), b)
  {
    var v, v', me, me' := View(t, s, b), View(t, s', b), ConsumerOf(View(t, s, b), b), ConsumerOf(View(t, s', b), b);
    forall p | p in t.z.parts ensures PartOk(t.z, v', me', p) {
      BystanderPart(t, s, s', c, b, p);
    }
    BystanderPhase(t, s, s', c, b);
  }

  lemma BystanderPart(t: Team, s: State, s': State, c: nat, b: nat, p: Partition)
    requires ConsumerOf(s', b) == ConsumerOf(s, b) && s'.cfg == s.cfg && s'.db == s.db && b != c
    requires Assigned(t, s, b) && DrainInv(t.z, View(t, s, b), b) && DrainInv(t.z, View(t, s', c), c)
    requires forall p :: LogOf(s.kafka, p) <= LogOf(s'.kafka, p)
    requires forall p :: !Owns(t, c, p) ==> CommittedOf(s'.kafka, p) == CommittedOf(s.kafka, p)
    requires p in t.z.parts
    ensures PartOk(t.z, View(t, s', b), ConsumerOf(View(t, s', b), b), p)
  {
    var v, v', w := View(t, s, b), View(t, s', b), View(t, s', c);
    assert PartOk(t.z, v, ConsumerOf(v, b), p);
    assert PartOk(t.z, w, ConsumerOf(w, c), p);
    CommittedBelow(t.z, w, c, p);
    forall i | CommittedOf(s'.kafka, p) <= i < |LogOf(s'.kafka, p)|
      ensures EntryOk(t.z, v', p, LogOf(s'.kafka, p)[i].payload)
    {
      assert EntryOk(t.z, w, p, LogOf(s'.kafka, p)[i].payload);
    }
  }

  lemma BystanderPhase(t: Team, s: State, s': State, c: nat, b: nat)
    requires ConsumerOf(s', b) == ConsumerOf(s, b) && b != c
    requires Assigned(t, s, b) && DrainInv(t.z, View(t, s, b), b)
    requires forall p :: LogOf(s.kafka, p) <= LogOf(s'.kafka, p)
    requires forall p :: !Owns(t, c, p) ==> CommittedOf(s'.kafka, p) == CommittedOf(s.kafka, p)
    ensures PhaseOk(t.z, View(t, s', b), ConsumerOf(View(t, s', b), b))
  {
    var ph := ConsumerOf(s, b).phase;
    match ph
    case Polled(p, i) => assert AtWork(ph, p);
    case Rejecting(p, i, _) => assert AtWork(ph, p);
    case Handled(p, i, _) => assert AtWork(ph, p);
    case Fanning(job, _) =>
      assert AtWork(ph, job.part);
      assert LogOf(s'.kafka, job.part)[job.offset] == LogOf(s.kafka, job.part)[job.offset];
    case _ =>
  }

  lemma TeamCallKeeps(t: Team, s: State, c: nat, e: ConsumerEvent)
    requires TeamInv(t, s) && c in t.workers && Healthy(t.z, s, c, e)
    ensures TeamInv(t, ConsumerApply(s, c, e))
  {
    var s' := ConsumerApply(s, c, e);
    ViewApply(t, s, c, e);
    HealthyCallDrains(t.z, View(t, s, c), c, e);
    CallerAssigned(t, s, c, e);
    forall b | b in t.workers ensures Assigned(t, s', b) && DrainInv(t.z, View(t, s', b), b) {
      if b != c { Bystander(t, s, c, e, b); }
    }
  }

  // ---------------------------------------------------------------- the measure of the team

  /** Where the owner of each partition stands. */
  ghost function Standing(t: Team, s: State): Consumer {
    Consumer(map p | p in t.z.parts ::
               if p in t.owner && p in ConsumerOf(s, t.owner[p]).position then ConsumerOf(s, t.owner[p]).position[p]
                  else 0,
             Ready)
  }

  /** What a worker in this phase has in hand. */
  ghost function InHand(s: State, ph: Phase): Measure {
    Measure(if ph.Polled? && OnMain(s, ph) then 1 else 0,
            if ph.Fanning? && OnMain(s, ph) then |ph.job.todo| else 0,
            if OnRetry(s, ph) then 1 else 0,
            0,
            Rank(ph),
            if ph.Fanning? && ph.push.Delivering? then ph.push.left else 0)
  }

  function Plus(a: Measure, b: Measure): Measure {
    Measure(a.main + b.main, a.mainTodo + b.mainTodo, a.retry + b.retry, a.budget + b.budget, a.rank + b.rank,
            a.left + b.left)
  }

  ghost function AllInHand(s: State, workers: seq<nat>): Measure {
    if workers == [] then Measure(0, 0, 0, 0, 0, 0)
    else Plus(InHand(s, ConsumerOf(s, workers[0]).phase), AllInHand(s, workers[1..]))
  }

  ghost function Waiting(z: Scope, s: State, me: Consumer): Measure {
    Measure(MainLeft(s, me, z.parts), 0, RetryLeft(s, me, z.parts), Budget(s, z.messages, z.users), 0, 0)
  }

  /** What waits, and what all workers have in hand. */
  ghost function TeamMeasure(t: Team, s: State): Measure {
    Plus(Waiting(t.z, s, Standing(t, s)), AllInHand(s, t.workers))
  }

  /** A lone worker's measure, taken apart the same way. */
  lemma ViewMeasure(t: Team, s: State, c: nat)
    ensures MeasureOf(t.z, View(t, s, c), c)
         == Plus(Waiting(t.z, s, ConsumerOf(View(t, s, c), c)), InHand(s, ConsumerOf(s, c).phase))
  {
    var v := View(t, s, c);
    LeftSame(s, ConsumerOf(v, c), v, ConsumerOf(v, c), t.z.parts);
    BudgetKept(s, v, t.z);
  }

  /** `a` changes to `a2` exactly as `b` to `b2`. */
  predicate SameChange(a: Measure, a2: Measure, b: Measure, b2: Measure) {
    && a2.main - a.main == b2.main - b.main && a2.mainTodo - a.mainTodo == b2.mainTodo - b.mainTodo
    && a2.retry - a.retry == b2.retry - b.retry && a2.budget - a.budget == b2.budget - b.budget
    && a2.rank - a.rank == b2.rank - b.rank && a2.left - a.left == b2.left - b.left
  }

  lemma LessMoves(a: Measure, a2: Measure, b: Measure, b2: Measure)
    requires SameChange(a, a2, b, b2) && Less(a2, a)
    ensures Less(b2, b)
  {
  }

  lemma PlusMoves(a: Measure, a2: Measure, b: Measure, b2: Measure, x: Measure, x2: Measure, y: Measure, y2: Measure)
    requires SameChange(a, a2, b, b2) && SameChange(x, x2, y, y2)
    ensures SameChange(Plus(a, x), Plus(a2, x2), Plus(b, y), Plus(b2, y2))
  {
  }

  // ---------------------------------------------------------------- what waits

  lemma {:induction false} CountJoin(p: Partition, tail: seq<Entry>, more: seq<Entry>)
    ensures CountMain(p, tail + more) == CountMain(p, tail) + CountMain(p, more)
    ensures RetryCountIn(p, tail + more) == RetryCountIn(p, tail) + RetryCountIn(p, more)
    decreases |more|
  {
    if more == [] {
      assert tail + more == tail;
    } else {
      var n := |more| - 1;
      CountJoin(p, tail, more[..n]);
      assert tail + more == (tail + more[..n]) + [more[n]] && more == more[..n] + [more[n]];
      CountLast(p, tail + more[..n], more[n]);
      CountLast(p, more[..n], more[n]);
    }
  }

  /** A partition's backlog, from either position, grows by the same records. */
  lemma BacklogGrows(p: Partition, log: seq<Entry>, log': seq<Entry>, i: nat, j: nat)
    requires log <= log' && i <= |log| && j <= |log|
    ensures CountMain(p, log'[i..]) - CountMain(p, log[i..]) == CountMain(p, log'[j..]) - CountMain(p, log[j..])
    ensures RetryCountIn(p, log'[i..]) - RetryCountIn(p, log[i..])
            == RetryCountIn(p, log'[j..]) - RetryCountIn(p, log[j..])
  {
    var more := log'[|log|..];
    assert log'[i..] == log[i..] + more && log'[j..] == log[j..] + more;
    CountJoin(p, log[i..], more);
    CountJoin(p, log[j..], more);
  }

  ghost predicate PartMoves(p: Partition, s: State, g: Consumer, v: Consumer, s': State, g': Consumer, v': Consumer) {
    && CountMain(p, Unread(s', g', p)) - CountMain(p, Unread(s, g, p))
    == CountMain(p, Unread(s', v', p)) - CountMain(p, Unread(s, v, p))
    && RetryCountIn(p, Unread(s', g', p)) - RetryCountIn(p, Unread(s, g, p))
    == RetryCountIn(p, Unread(s', v', p)) - RetryCountIn(p, Unread(s, v, p))
  }

  lemma {:induction false} LeftMoves(parts: seq<Partition>, s: State, g: Consumer, v: Consumer, s': State, g': Consumer,
                                     v': Consumer)
    requires forall p :: p in parts ==> PartMoves(p, s, g, v, s', g', v')
    ensures MainLeft(s', g', parts) - MainLeft(s, g, parts) == MainLeft(s', v', parts) - MainLeft(s, v, parts)
    ensures RetryLeft(s', g', parts) - RetryLeft(s, g, parts) == RetryLeft(s', v', parts) - RetryLeft(s, v, parts)
  {
    if parts != [] {
      assert PartMoves(parts[0], s, g, v, s', g', v');
      LeftMoves(parts[1..], s, g, v, s', g', v');
    }
  }

  lemma OwnPart(t: Team, s: State, c: nat, p: Partition)
    requires Assigned(t, s, c) && p in t.z.parts && Owns(t, c, p)
    ensures Unread(s, Standing(t, s), p) == Unread(s, ConsumerOf(View(t, s, c), c), p)
  {
  }

  lemma OtherPart(t: Team, s: State, s': State, c: nat, b: nat, p: Partition)
    requires p in t.z.parts && Owns(t, b, p) && b != c && ConsumerOf(s', b) == ConsumerOf(s, b)
    requires p in ConsumerOf(s, b).position && ConsumerOf(s, b).position[p] <= |LogOf(s.kafka, p)|
    requires LogOf(s.kafka, p) <= LogOf(s'.kafka, p)
    requires CommittedOf(s'.kafka, p) == CommittedOf(s.kafka, p) <= |LogOf(s.kafka, p)|
    ensures PartMoves(p, s, Standing(t, s), ConsumerOf(View(t, s, c), c), s', Standing(t, s'),
                      ConsumerOf(View(t, s', c), c))
  {
    BacklogGrows(p, LogOf(s.kafka, p), LogOf(s'.kafka, p), ConsumerOf(s, b).position[p], CommittedOf(s.kafka, p));
  }

  lemma OtherPartMoves(t: Team, s: State, c: nat, e: ConsumerEvent, p: Partition)
    requires TeamInv(t, s) && c in t.workers && Healthy(t.z, s, c, e) && p in t.z.parts && !Owns(t, c, p)
    ensures var s' := ConsumerApply(s, c, e);
            PartMoves(p, s, Standing(t, s), ConsumerOf(View(t, s, c), c), s', Standing(t, s'),
                      ConsumerOf(View(t, s', c), c))
  {
    var b := t.owner[p];
    assert Assigned(t, s, b) && DrainInv(t.z, View(t, s, b), b) && Assigned(t, s, c);
    CallSeen(t, s, c, e, b);
    PartStands(t, s, b, p);
    OtherPart(t, s, ConsumerApply(s, c, e), c, b, p);
  }

  lemma PartStands(t: Team, s: State, b: nat, p: Partition)
    requires Assigned(t, s, b) && DrainInv(t.z, View(t, s, b), b) && p in t.z.parts && Owns(t, b, p)
    ensures p in ConsumerOf(s, b).position && ConsumerOf(s, b).position[p] <= |LogOf(s.kafka, p)|
    ensures CommittedOf(s.kafka, p) <= |LogOf(s.kafka, p)|
  {
    var v := View(t, s, b);
    assert PartOk(t.z, v, ConsumerOf(v, b), p);
    CommittedBelow(t.z, v, b, p);
  }

  lemma WaitingMoves(t: Team, s: State, c: nat, e: ConsumerEvent)
    requires TeamInv(t, s) && c in t.workers && Healthy(t.z, s, c, e)
    ensures var s' := ConsumerApply(s, c, e);
            SameChange(Waiting(t.z, s, ConsumerOf(View(t, s, c), c)), Waiting(t.z, s', ConsumerOf(View(t, s', c), c)),
                       Waiting(t.z, s, Standing(t, s)), Waiting(t.z, s', Standing(t, s')))
  {
    var s' := ConsumerApply(s, c, e);
    var g, v, g', v' := Standing(t, s), ConsumerOf(View(t, s, c), c), Standing(t, s'), ConsumerOf(View(t, s', c), c);
    CallerAssigned(t, s, c, e);
    forall p | p in t.z.parts ensures PartMoves(p, s, g, v, s', g', v') {
      if Owns(t, c, p) {
        OwnPart(t, s, c, p);
        OwnPart(t, s', c, p);
      } else {
        OtherPartMoves(t, s, c, e, p);
      }
    }
    LeftMoves(t.z.parts, s, g, v, s', g', v');
  }

  // ---------------------------------------------------------------- what is in hand

  lemma InHandKept(t: Team, s: State, c: nat, e: ConsumerEvent, b: nat)
    requires TeamInv(t, s) && c in t.workers && b in t.workers && b != c && Healthy(t.z, s, c, e)
    ensures var s' := ConsumerApply(s, c, e);
            InHand(s', ConsumerOf(s', b).phase) == InHand(s, ConsumerOf(s, b).phase)
  {
    CallSeen(t, s, c, e, b);
    var v := View(t, s, b);
    assert DrainInv(t.z, v, b) && PhaseOk(t.z, v, ConsumerOf(v, b));
    SameInHand(s, ConsumerApply(s, c, e), ConsumerOf(s, b).phase);
  }

  lemma SameInHand(s: State, s': State, ph: Phase)
    requires forall p :: LogOf(s.kafka, p) <= LogOf(s'.kafka, p)
    requires ph.Polled? ==> ph.offset < |LogOf(s.kafka, ph.part)|
    ensures InHand(s', ph) == InHand(s, ph)
  {
    if ph.Polled? { assert LogOf(s'.kafka, ph.part)[ph.offset] == LogOf(s.kafka, ph.part)[ph.offset]; }
  }

  lemma {:induction false} AllSame(s: State, s': State, workers: seq<nat>)
    requires forall b :: b in workers ==> InHand(s', ConsumerOf(s', b).phase) == InHand(s, ConsumerOf(s, b).phase)
    ensures AllInHand(s', workers) == AllInHand(s, workers)
  {
    if workers != [] { AllSame(s, s', workers[1..]); }
  }

  lemma {:induction false} HandsMove(s: State, s': State, workers: seq<nat>, c: nat)
    requires c in workers && forall i, j :: 0 <= i < j < |workers| ==> workers[i] != workers[j]
    requires forall b :: b in workers && b != c ==>
               InHand(s', ConsumerOf(s', b).phase) == InHand(s, ConsumerOf(s, b).phase)
    ensures SameChange(InHand(s, ConsumerOf(s, c).phase), InHand(s', ConsumerOf(s', c).phase),
                       AllInHand(s, workers), AllInHand(s', workers))
  {
    if workers[0] == c {
      assert forall b :: b in workers[1..] ==> b != c;
      AllSame(s, s', workers[1..]);
    } else {
      HandsMove(s, s', workers[1..], c);
    }
  }

  /** Every successful call, whoever makes it, brings the team closer to the end. */
  lemma TeamCallDrains(t: Team, s: State, c: nat, e: ConsumerEvent)
    requires TeamInv(t, s) && c in t.workers && Healthy(t.z, s, c, e)
    ensures TeamInv(t, ConsumerApply(s, c, e)) && Less(TeamMeasure(t, ConsumerApply(s, c, e)), TeamMeasure(t, s))
  {
    var s' := ConsumerApply(s, c, e);
    TeamCallKeeps(t, s, c, e);
    ViewApply(t, s, c, e);
    HealthyCallDrains(t.z, View(t, s, c), c, e);
    TeamCallMoves(t, s, c, e);
    LessMoves(MeasureOf(t.z, View(t, s, c), c), MeasureOf(t.z, View(t, s', c), c), TeamMeasure(t, s),
              TeamMeasure(t, s'));
  }

  lemma TeamCallMoves(t: Team, s: State, c: nat, e: ConsumerEvent)
    requires TeamInv(t, s) && c in t.workers && Healthy(t.z, s, c, e)
    ensures var s' := ConsumerApply(s, c, e);
            SameChange(MeasureOf(t.z, View(t, s, c), c), MeasureOf(t.z, View(t, s', c), c), TeamMeasure(t, s),
                       TeamMeasure(t, s'))
  {
    var s' := ConsumerApply(s, c, e);
    WaitingMoves(t, s, c, e);
    forall b | b in t.workers && b != c
      ensures InHand(s', ConsumerOf(s', b).phase) == InHand(s, ConsumerOf(s, b).phase)
    {
      InHandKept(t, s, c, e, b);
    }
    HandsMove(s, s', t.workers, c);
    ViewMeasure(t, s, c);
    ViewMeasure(t, s', c);
    PlusMoves(Waiting(t.z, s, ConsumerOf(View(t, s, c), c)), Waiting(t.z, s', ConsumerOf(View(t, s', c), c)),
              Waiting(t.z, s, Standing(t, s)), Waiting(t.z, s', Standing(t, s')),
              InHand(s, ConsumerOf(s, c).phase), InHand(s', ConsumerOf(s', c).phase),
              AllInHand(s, t.workers), AllInHand(s', t.workers));
  }

  // ---------------------------------------------------------------- theorems

  ghost predicate TeamDue(t: Team, s: State) {
    exists c, e :: c in t.workers && Healthy(t.z, s, c, e)
  }

  lemma DueIsReal(t: Team, s: State, c: nat, e: ConsumerEvent)
    requires Healthy(t.z, View(t, s, c), c, e) && !ConsumerOf(s, c).phase.Ready?
    ensures Healthy(t.z, s, c, e)
  {
    assert ConsumerOf(View(t, s, c), c).phase == ConsumerOf(s, c).phase;
  }

  /** Until every partition is committed to its end some worker has a successful call due. */
  lemma TeamNeverStuck(t: Team, s: State)
    requires TeamInv(t, s)
    ensures TeamDue(t, s) || AllCommitted(t.z, s)
  {
    if p :| p in t.z.parts && CommittedOf(s.kafka, p) != |LogOf(s.kafka, p)| {
      var c := t.owner[p];
      assert Assigned(t, s, c) && DrainInv(t.z, View(t, s, c), c);
      OwnerDue(t, s, c, p);
    }
  }

  lemma OwnerDue(t: Team, s: State, c: nat, p: Partition)
    requires c in t.workers && Owns(t, c, p) && p in t.z.parts && Assigned(t, s, c) && DrainInv(t.z, View(t, s, c), c)
    requires CommittedOf(s.kafka, p) != |LogOf(s.kafka, p)|
    ensures TeamDue(t, s)
  {
    var v := View(t, s, c);
    if ConsumerOf(s, c).phase.Ready? {
      assert PartOk(t.z, v, ConsumerOf(v, c), p);
      PartStands(t, s, c, p);
      assert Healthy(t.z, s, c, Poll(p));
    } else {
      var e := DueCall(t.z, v, c);
      DueIsReal(t, s, c, e);
    }
  }

  datatype Move = Move(c: nat, e: ConsumerEvent)

  ghost predicate TeamMakesCall(t: Team, run: nat -> State, moves: nat -> Move, i: nat) {
    && moves(i).c in t.workers && Healthy(t.z, run(i), moves(i).c, moves(i).e)
    && run(i + 1) == ConsumerApply(run(i), moves(i).c, moves(i).e)
  }

  /** From `i` on some worker makes a successful call whenever one is due. */
  ghost predicate TeamDiligent(t: Team, run: nat -> State, moves: nat -> Move, i: nat) {
    forall j: nat :: j >= i && TeamDue(t, run(j)) ==> TeamMakesCall(t, run, moves, j)
  }

  lemma TeamStep(t: Team, run: nat -> State, moves: nat -> Move, i: nat)
    requires TeamInv(t, run(i)) && TeamMakesCall(t, run, moves, i)
    ensures TeamInv(t, run(i + 1)) && Less(TeamMeasure(t, run(i + 1)), TeamMeasure(t, run(i)))
  {
    TeamCallDrains(t, run(i), moves(i).c, moves(i).e);
  }

  ghost function InvAt(t: Team, run: nat -> State): nat -> bool {
    (k: nat) => TeamInv(t, run(k))
  }

  ghost function DueAt(t: Team, run: nat -> State): nat -> bool {
    (k: nat) => TeamDue(t, run(k))
  }

  ghost function MeasureAt(t: Team, run: nat -> State): nat -> Measure {
    (k: nat) => TeamMeasure(t, run(k))
  }

  lemma DueStep(t: Team, run: nat -> State, moves: nat -> Move, i: nat, k: nat)
    requires TeamDiligent(t, run, moves, i) && k >= i
    ensures Down(InvAt(t, run), DueAt(t, run), MeasureAt(t, run), k)
  {
    if TeamInv(t, run(k)) && TeamDue(t, run(k)) { TeamStep(t, run, moves, k); }
  }

  lemma TeamStops(t: Team, run: nat -> State, moves: nat -> Move, i: nat) returns (j: nat)
    requires InvAt(t, run)(i) && TeamDiligent(t, run, moves, i)
    ensures j >= i && InvAt(t, run)(j) && !DueAt(t, run)(j) && forall k: nat :: i <= k < j ==> DueAt(t, run)(k)
  {
    forall k: nat | k >= i ensures Down(InvAt(t, run), DueAt(t, run), MeasureAt(t, run), k) {
      DueStep(t, run, moves, i, k);
    }
    j := Descends(InvAt(t, run), DueAt(t, run), MeasureAt(t, run), i, MeasureAt(t, run)(i));
  }

  lemma StopsAtEnd(t: Team, run: nat -> State, j: nat)
    requires InvAt(t, run)(j) && !DueAt(t, run)(j)
    ensures AllCommitted(t.z, run(j))
  {
    TeamNeverStuck(t, run(j));
  }

  lemma DueIsMade(t: Team, run: nat -> State, moves: nat -> Move, i: nat, k: nat)
    requires TeamDiligent(t, run, moves, i) && k >= i && DueAt(t, run)(k)
    ensures TeamMakesCall(t, run, moves, k)
  {
    assert TeamDue(t, run(k));
  }

  /** Several workers, their calls interleaved in any way, come after finitely many calls to a state in
  which every partition is committed to its end. */
  lemma TeamCompletes(t: Team, run: nat -> State, moves: nat -> Move, i: nat) returns (j: nat)
    requires TeamInv(t, run(i)) && TeamDiligent(t, run, moves, i)
    ensures j >= i && AllCommitted(t.z, run(j)) && forall k: nat :: i <= k < j ==> TeamMakesCall(t, run, moves, k)
  {
    assert InvAt(t, run)(i);
    j := TeamStops(t, run, moves, i);
    StopsAtEnd(t, run, j);
    forall k: nat | i <= k < j ensures TeamMakesCall(t, run, moves, k) { DueIsMade(t, run, moves, i, k); }
  }

  // ---------------------------------------------------------------- which backlogs

  /** Workers that are ready to consume these partitions, each its own, from where they are committed. */
  ghost predicate TeamAtStart(s: State, owner: map<Partition, nat>, workers: seq<nat>, parts: seq<Partition>) {
    && (forall i, j :: 0 <= i < j < |parts| ==> parts[i] != parts[j])
    && (forall p :: p in parts ==> p.topic != Dlq) && (exists p :: p in parts && p.topic == Retry)
    && TeamOk(Team(Scope(parts, [], []), owner, workers))
    && (forall c :: c in workers ==> ConsumerOf(s, c).phase.Ready?)
    && (forall c, p :: c in workers && p in parts ==> (p in ConsumerOf(s, c).position <==> owner[p] == c))
    && (forall p :: p in parts ==>
        ConsumerOf(s, owner[p]).position[p] == CommittedOf(s.kafka, p) <= |LogOf(s.kafka, p)|)
  }

  lemma ViewNoPoison(s: State, v: State, parts: seq<Partition>)
    requires v == s.(consumers := v.consumers) && NoPoison(s, parts)
    ensures NoPoison(v, parts)
  {
    forall p, i | p in parts && CommittedOf(v.kafka, p) <= i < |LogOf(v.kafka, p)|
      ensures !Poison(v, p, LogOf(v.kafka, p)[i].payload)
    {
      assert !Poison(s, p, LogOf(s.kafka, p)[i].payload);
    }
  }

  /** The scope, found from one worker's view. */
  lemma OneStarts(s: State, t: Team, c: nat) returns (z: Scope, v: State)
    requires TeamAtStart(s, t.owner, t.workers, t.z.parts) && NoPoison(s, t.z.parts) && c in t.workers
    ensures z.parts == t.z.parts && v == s.(consumers := v.consumers) && DrainInv(z, v, c)
  {
    v := View(t, s, c);
    StartView(s, t, c);
    ViewNoPoison(s, v, t.z.parts);
    z := DrainStarts(v, c, t.z.parts);
  }

  /** Any backlog without poison meets the conditions of the draining theorem. */
  lemma TeamStarts(s: State, owner: map<Partition, nat>, workers: seq<nat>, parts: seq<Partition>) returns (t: Team)
    requires TeamAtStart(s, owner, workers, parts) && NoPoison(s, parts)
    ensures t.z.parts == parts && t.owner == owner && t.workers == workers && TeamInv(t, s)
  {
    var q :| q in parts && q.topic == Retry;
    var z, v := OneStarts(s, Team(Scope(parts, [], []), owner, workers), owner[q]);
    t := Team(z, owner, workers);
    forall c | c in workers ensures Assigned(t, s, c) && DrainInv(z, View(t, s, c), c) {
      WorkerStarts(s, t, c, v, owner[q]);
    }
  }

  lemma StartView(s: State, t: Team, c: nat)
    requires TeamAtStart(s, t.owner, t.workers, t.z.parts) && c in t.workers
    ensures var me := ConsumerOf(View(t, s, c), c);
            me.phase.Ready? && forall p :: p in t.z.parts ==>
                  p in me.position && me.position[p] == CommittedOf(s.kafka, p)
    ensures AtStart(View(t, s, c), c, t.z.parts)
  {
  }

  lemma WorkerStarts(s: State, t: Team, c: nat, v: State, b: nat)
    requires TeamAtStart(s, t.owner, t.workers, t.z.parts) && c in t.workers
    requires v == s.(consumers := v.consumers) && DrainInv(t.z, v, b)
    ensures Assigned(t, s, c) && DrainInv(t.z, View(t, s, c), c)
  {
    var w := View(t, s, c);
    StartView(s, t, c);
    forall p | p in t.z.parts ensures PartOk(t.z, w, ConsumerOf(w, c), p) {
      assert PartOk(t.z, v, ConsumerOf(v, b), p);
      forall i | CommittedOf(w.kafka, p) <= i < |LogOf(w.kafka, p)|
        ensures EntryOk(t.z, w, p, LogOf(w.kafka, p)[i].payload)
      {
        assert EntryOk(t.z, v, p, LogOf(v.kafka, p)[i].payload);
      }
    }
  }
}
