/** What becomes of a payload that was saved offline, and so of a recall: exactly when the offline table
comes to hold it, and when it does not. */
module Recall {
  import opened PipelineState
  import opened OutboxTheorems
  import opened PushSafety
  import opened Quiescence

  // ---------------------------------------------------------------- one event

  /** The event inserts `d` into the offline table for `u`. */
  predicate Inserts(s: State, e: Event, u: nat, d: Data) {
    && e.OnConsumer? && e.ce.SaveOffline? && e.ce.applied && ConsumerEnabled(s, e.c, e.ce)
    && var job := ConsumerOf(s, e.c).phase.job;
    job.todo[0] == u && Scoped(u, job.data) == d
  }

  /** The insert changes the row: the user has not acknowledged the message. */
  predicate Writes(s: State, e: Event, u: nat, d: Data) {
    Inserts(s, e, u, d) && !HasAcked(s.fx, u, d.messageId)
  }

  /** The event puts another payload of the same message in the user's row. */
  ghost predicate Overwrites(s: State, e: Event, u: nat, d: Data) {
    exists x :: x != d && x.messageId == d.messageId && Writes(s, e, u, x)
  }

  predicate RowHolds(s: State, u: nat, d: Data) {
    (u, d.messageId) in s.fx.offline && s.fx.offline[(u, d.messageId)].data == d
  }

  /** The client acknowledges the message while its offline row exists. */
  predicate Acks(s: State, e: Event, u: nat, m: nat) {
    e == AckOffline(m, u) && (u, m) in s.fx.offline
  }

  lemma SaveStep(s: State, e: Event)
    requires Enabled(s, e) && e.OnConsumer? && e.ce.SaveOffline? && e.ce.applied
    ensures var job := ConsumerOf(s, e.c).phase.job;
            Apply(s, e).fx == WriteOffline(s.fx, job.todo[0], Scoped(job.todo[0], job.data))
  {
  }

  lemma ConsumerOther(s: State, c: nat, e: ConsumerEvent)
    requires ConsumerEnabled(s, c, e) && !(e.SaveOffline? && e.applied)
    ensures ConsumerApply(s, c, e).fx.saved == s.fx.saved && ConsumerApply(s, c, e).fx.offline == s.fx.offline
  {
  }

  lemma OtherStep(s: State, e: Event)
    requires Enabled(s, e) && !(e.OnConsumer? && e.ce.SaveOffline? && e.ce.applied)
    ensures Apply(s, e).fx.saved == s.fx.saved && Apply(s, e).fx.offline.Keys == s.fx.offline.Keys
    ensures forall key :: key in s.fx.offline ==> Apply(s, e).fx.offline[key].data == s.fx.offline[key].data
    ensures forall u, m :: HasAcked(Apply(s, e).fx, u, m) <==> HasAcked(s.fx, u, m) || Acks(s, e, u, m)
  {
    if e.OnConsumer? {
      ConsumerOther(s, e.c, e.ce);
    } else if !e.AckOffline? {
      assert Apply(s, e).fx.saved == s.fx.saved && Apply(s, e).fx.offline == s.fx.offline;
    }
  }

  lemma SavedStep(s: State, e: Event, u: nat, d: Data)
    requires Enabled(s, e)
    ensures (u, d) in Apply(s, e).fx.saved <==> (u, d) in s.fx.saved || Writes(s, e, u, d)
  {
    if e.OnConsumer? && e.ce.SaveOffline? && e.ce.applied { SaveStep(s, e); } else { OtherStep(s, e); }
  }

  lemma AckedStep(s: State, e: Event, u: nat, m: nat)
    requires Enabled(s, e)
    ensures HasAcked(Apply(s, e).fx, u, m) <==> HasAcked(s.fx, u, m) || Acks(s, e, u, m)
  {
    if e.OnConsumer? && e.ce.SaveOffline? && e.ce.applied { SaveStep(s, e); } else { OtherStep(s, e); }
  }

  lemma RowStep(s: State, e: Event, u: nat, d: Data)
    requires Enabled(s, e)
    ensures RowHolds(Apply(s, e), u, d) <==> Writes(s, e, u, d) || (RowHolds(s, u, d) && !Overwrites(s, e, u, d))
  {
    if e.OnConsumer? && e.ce.SaveOffline? && e.ce.applied {
      SaveStep(s, e);
      var job := ConsumerOf(s, e.c).phase.job;
      var v, x := job.todo[0], Scoped(job.todo[0], job.data);
      if v == u && x.messageId == d.messageId && x != d &&
         !HasAcked(s.fx, u, d.messageId) { assert Writes(s, e, u, x); }
    } else {
      OtherStep(s, e);
    }
  }

  // ---------------------------------------------------------------- whole runs

  /** The state before event `i` of the run. */
  ghost predicate Before(cfg: Config, es: seq<Event>, i: int, s: State) {
    0 <= i < |es| && Runs(Initial(cfg), es[..i]) && s == After(Initial(cfg), es[..i])
  }

  ghost predicate WritesAt(cfg: Config, es: seq<Event>, i: int, u: nat, d: Data) {
    exists s :: Before(cfg, es, i, s) && Writes(s, es[i], u, d)
  }

  ghost predicate OverwritesAt(cfg: Config, es: seq<Event>, i: int, u: nat, d: Data) {
    exists s :: Before(cfg, es, i, s) && Overwrites(s, es[i], u, d)
  }

  ghost predicate AcksAt(cfg: Config, es: seq<Event>, i: int, u: nat, m: nat) {
    exists s :: Before(cfg, es, i, s) && Acks(s, es[i], u, m)
  }

  /** The message was acknowledged at some moment when its row existed. */
  ghost predicate Acknowledged(cfg: Config, es: seq<Event>, u: nat, m: nat) {
    exists i :: AcksAt(cfg, es, i, u, m)
  }

  ghost predicate Written(cfg: Config, es: seq<Event>, u: nat, d: Data) {
    exists i :: WritesAt(cfg, es, i, u, d)
  }

  /** Some insert of `d` came before the user's acknowledgement, and no other payload of the message was
  written after it. */
  ghost predicate LastWritten(cfg: Config, es: seq<Event>, u: nat, d: Data) {
    exists i :: WritesAt(cfg, es, i, u, d) && NotOverwritten(cfg, es, i, u, d)
  }

  ghost predicate NotOverwritten(cfg: Config, es: seq<Event>, i: int, u: nat, d: Data) {
    forall j :: i < j < |es| ==> !OverwritesAt(cfg, es, j, u, d)
  }

  lemma BeforeFront(cfg: Config, front: seq<Event>, e: Event, i: int, s: State)
    requires Runs(Initial(cfg), front)
    ensures i < |front| ==> (Before(cfg, front + [e], i, s) <==> Before(cfg, front, i, s))
    ensures Before(cfg, front + [e], |front|, s) <==> s == After(Initial(cfg), front)
  {
    assert (front + [e])[..|front|] == front;
    if 0 <= i < |front| { assert (front + [e])[..i] == front[..i]; }
  }

  lemma AtFront(cfg: Config, front: seq<Event>, e: Event, i: int, u: nat, d: Data)
    requires Runs(Initial(cfg), front) && i < |front|
    ensures WritesAt(cfg, front + [e], i, u, d) <==> WritesAt(cfg, front, i, u, d)
    ensures OverwritesAt(cfg, front + [e], i, u, d) <==> OverwritesAt(cfg, front, i, u, d)
  {
    forall s ensures Before(cfg, front + [e], i, s) <==> Before(cfg, front, i, s) { BeforeFront(cfg, front, e, i, s); }
  }

  lemma AtLast(cfg: Config, front: seq<Event>, e: Event, u: nat, d: Data)
    requires Runs(Initial(cfg), front)
    ensures WritesAt(cfg, front + [e], |front|, u, d) <==> Writes(After(Initial(cfg), front), e, u, d)
    ensures OverwritesAt(cfg, front + [e], |front|, u, d) <==> Overwrites(After(Initial(cfg), front), e, u, d)
  {
    var s0 := After(Initial(cfg), front);
    forall s ensures Before(cfg, front + [e], |front|, s) <==> s == s0 { BeforeFront(cfg, front, e, |front|, s); }
    assert Before(cfg, front + [e], |front|, s0);
  }

  lemma WrittenOn(cfg: Config, front: seq<Event>, e: Event, u: nat, d: Data)
    requires Runs(Initial(cfg), front)
    ensures Written(cfg, front + [e], u, d) <==>
              Written(cfg, front, u, d) || Writes(After(Initial(cfg), front), e, u, d)
  {
    AtLast(cfg, front, e, u, d);
    forall i: int | i < |front| ensures WritesAt(cfg, front + [e], i, u, d) <==> WritesAt(cfg, front, i, u, d) {
      AtFront(cfg, front, e, i, u, d);
    }
    if Written(cfg, front + [e], u, d) {
      var i :| WritesAt(cfg, front + [e], i, u, d);
      assert i <= |front|;
    }
  }

  lemma LastWrittenOn(cfg: Config, front: seq<Event>, e: Event, u: nat, d: Data)
    requires Runs(Initial(cfg), front)
    ensures LastWritten(cfg, front + [e], u, d) <==>
            || Writes(After(Initial(cfg), front), e, u, d)
            || (LastWritten(cfg, front, u, d) && !Overwrites(After(Initial(cfg), front), e, u, d))
  {
    var es := front + [e];
    AtLast(cfg, front, e, u, d);
    forall i: int | i < |front|
      ensures WritesAt(cfg, es, i, u, d) <==> WritesAt(cfg, front, i, u, d)
      ensures NotOverwritten(cfg, es, i, u, d) <==>
                NotOverwritten(cfg, front, i, u, d) && !OverwritesAt(cfg, es, |front|, u, d)
    {
      AtFront(cfg, front, e, i, u, d);
      OverwrittenOn(cfg, front, e, i, u, d);
    }
    if WritesAt(cfg, es, |front|, u, d) { assert NotOverwritten(cfg, es, |front|, u, d); }
    if LastWritten(cfg, es, u, d) {
      var i :| WritesAt(cfg, es, i, u, d) && NotOverwritten(cfg, es, i, u, d);
      assert i <= |front|;
    }
    if LastWritten(cfg, front, u, d) {
      var i :| WritesAt(cfg, front, i, u, d) && NotOverwritten(cfg, front, i, u, d);
      assert i < |front|;
    }
  }

  lemma OverwrittenOn(cfg: Config, front: seq<Event>, e: Event, i: int, u: nat, d: Data)
    requires Runs(Initial(cfg), front) && i < |front|
    ensures NotOverwritten(cfg, front + [e], i, u, d) <==>
            NotOverwritten(cfg, front, i, u, d) && !OverwritesAt(cfg, front + [e], |front|, u, d)
  {
    forall j: int | j < |front| ensures OverwritesAt(cfg, front + [e], j, u, d) <==> OverwritesAt(cfg, front, j, u, d) {
      AtFront(cfg, front, e, j, u, d);
    }
  }

  /** A payload is in the history of saved payloads if and only if it was inserted at some moment when the
  user had not acknowledged the message. */
  lemma {:induction false} SavedIff(cfg: Config, es: seq<Event>, u: nat, d: Data)
    requires Runs(Initial(cfg), es)
    ensures (u, d) in After(Initial(cfg), es).fx.saved <==> Written(cfg, es, u, d)
    decreases |es|
  {
    if es != [] {
      var front, e := LastStep(cfg, es);
      SavedIff(cfg, front, u, d);
      SavedStep(After(Initial(cfg), front), e, u, d);
      WrittenOn(cfg, front, e, u, d);
    }
  }

  /** The user's row holds a payload if and only if it was inserted before the acknowledgement and no
  other payload of the message was written after it. */
  lemma {:induction false} RowIff(cfg: Config, es: seq<Event>, u: nat, d: Data)
    requires Runs(Initial(cfg), es)
    ensures RowHolds(After(Initial(cfg), es), u, d) <==> LastWritten(cfg, es, u, d)
    decreases |es|
  {
    if es != [] {
      var front, e := LastStep(cfg, es);
      RowIff(cfg, front, u, d);
      RowStep(After(Initial(cfg), front), e, u, d);
      LastWrittenOn(cfg, front, e, u, d);
    }
  }

  lemma AcknowledgedOn(cfg: Config, front: seq<Event>, e: Event, u: nat, m: nat)
    requires Runs(Initial(cfg), front)
    ensures Acknowledged(cfg, front + [e], u, m) <==>
            Acknowledged(cfg, front, u, m) || Acks(After(Initial(cfg), front), e, u, m)
  {
    var es, s0 := front + [e], After(Initial(cfg), front);
    forall i: int | i < |front| ensures AcksAt(cfg, es, i, u, m) <==> AcksAt(cfg, front, i, u, m) {
      forall s ensures Before(cfg, es, i, s) <==> Before(cfg, front, i, s) { BeforeFront(cfg, front, e, i, s); }
    }
    forall s ensures Before(cfg, es, |front|, s) <==> s == s0 { BeforeFront(cfg, front, e, |front|, s); }
    assert AcksAt(cfg, es, |front|, u, m) <==> Acks(s0, e, u, m) by {
      if Acks(s0, e, u, m) { assert Before(cfg, es, |front|, s0); }
    }
    if Acknowledged(cfg, es, u, m) {
      var i :| AcksAt(cfg, es, i, u, m);
      assert i <= |front|;
    }
    if Acknowledged(cfg, front, u, m) {
      var i :| AcksAt(cfg, front, i, u, m);
      assert AcksAt(cfg, es, i, u, m);
    }
  }

  /** A row is acknowledged if and only if the client acknowledged the message while the row existed: an
  acknowledgement before that changes nothing. */
  lemma {:induction false} AckedIff(cfg: Config, es: seq<Event>, u: nat, m: nat)
    requires Runs(Initial(cfg), es)
    ensures HasAcked(After(Initial(cfg), es).fx, u, m) <==> Acknowledged(cfg, es, u, m)
    decreases |es|
  {
    if es != [] {
      var front, e := LastStep(cfg, es);
      AckedIff(cfg, front, u, m);
      AckedStep(After(Initial(cfg), front), e, u, m);
      AcknowledgedOn(cfg, front, e, u, m);
    }
  }

  // ---------------------------------------------------------------- recalls

  function RecallOf(s: State, m: nat): Data
    requires m in s.db.messages
  {
    s.db.messages[m].data.(recalled := true)
  }

  /** In every reachable quiet state: a recipient who has not acknowledged the message was reached with its
  recall; and one who got it neither on a connection nor through the DLQ finds it in their offline row if
  and only if it was inserted before they acknowledged and nothing else was written after it. */
  lemma RecallTheorem(cfg: Config, es: seq<Event>, m: nat, u: nat)
    requires Runs(Initial(cfg), es) && Quiet(After(Initial(cfg), es))
    requires m in After(Initial(cfg), es).db.messages && Recipient(After(Initial(cfg), es), m, u)
    requires After(Initial(cfg), es).db.messages[m].recallEvent.Some?
    ensures var s := After(Initial(cfg), es);
            var d := RecallOf(s, m);
            && (Reached(s, u, d) || Acknowledged(cfg, es, u, m))
            && (Reached(s, u, d) <==> Delivered(s, u, d) || DeadLettered(s, u, d) || Written(cfg, es, u, Scoped(u, d)))
            && (RowHolds(s, u, Scoped(u, d)) <==> LastWritten(cfg, es, u, Scoped(u, d)))
  {
    var s := After(Initial(cfg), es);
    QuiescenceTheorem(cfg, es, m, u);
    MessageIdIs(cfg, es, m);
    AckedIff(cfg, es, u, m);
    SavedIff(cfg, es, u, Scoped(u, RecallOf(s, m)));
    RowIff(cfg, es, u, Scoped(u, RecallOf(s, m)));
  }
}
