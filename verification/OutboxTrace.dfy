/** How an outbox event dies: the calls its worker made, read off the run. */
module OutboxTrace {
  import opened PipelineState
  import opened OutboxSafety
  import opened OutboxTheorems

  predicate By(e: Event, w: nat) {
    e.OnPublisher? && e.w == w
  }

  /** `w` claimed its present event at `i` and has claimed nothing since. */
  ghost predicate ClaimedSince(es: seq<Event>, w: nat, id: nat, i: nat) {
    && i < |es| && By(es[i], w) && es[i].pe.Claim? && es[i].pe.eventId == id
    && forall k :: i < k < |es| ==> !(By(es[k], w) && es[k].pe.Claim?)
  }

  lemma PhaseKept(s: State, e: Event, w: nat)
    requires Enabled(s, e) && !By(e, w)
    ensures PublisherOf(Apply(s, e), w) == PublisherOf(s, w)
  {
  }

  lemma {:induction false} ClaimTrail(cfg: Config, es: seq<Event>, w: nat) returns (i: nat)
    requires Runs(Initial(cfg), es) && PublisherOf(After(Initial(cfg), es), w).Claimed?
    ensures ClaimedSince(es, w, PublisherOf(After(Initial(cfg), es), w).eventId, i)
    decreases |es|
  {
    assert es != [];
    var front, e := LastStep(cfg, es);
    if By(e, w) {
      i := |front|;
    } else {
      PhaseKept(After(Initial(cfg), front), e, w);
      i := ClaimTrail(cfg, front, w);
    }
  }

  lemma {:induction false} FailureTrail(cfg: Config, es: seq<Event>, w: nat) returns (i: nat, f: nat)
    requires Runs(Initial(cfg), es) && PublisherOf(After(Initial(cfg), es), w).DeadLettering?
    ensures ClaimedSince(es, w, PublisherOf(After(Initial(cfg), es), w).eventId, i)
    ensures i < f < |es| && By(es[f], w) && es[f].pe.Publish? && !es[f].pe.ok
    decreases |es|
  {
    assert es != [];
    var front, e := LastStep(cfg, es);
    if By(e, w) {
      i := ClaimTrail(cfg, front, w);
      f := |front|;
    } else {
      PhaseKept(After(Initial(cfg), front), e, w);
      i, f := FailureTrail(cfg, front, w);
    }
  }

  lemma {:induction false} DlqTrail(cfg: Config, es: seq<Event>, w: nat) returns (i: nat, f: nat, d: nat)
    requires Runs(Initial(cfg), es) && PublisherOf(After(Initial(cfg), es), w).MarkingDead?
    ensures ClaimedSince(es, w, PublisherOf(After(Initial(cfg), es), w).eventId, i)
    ensures i < f < d < |es| && By(es[f], w) && es[f].pe.Publish? && !es[f].pe.ok
    ensures By(es[d], w) && es[d].pe.PublishDlq? && es[d].pe.ok
    decreases |es|
  {
    assert es != [];
    var front, e := LastStep(cfg, es);
    if By(e, w) {
      i, f := FailureTrail(cfg, front, w);
      d := |front|;
    } else {
      PhaseKept(After(Initial(cfg), front), e, w);
      i, f, d := DlqTrail(cfg, front, w);
    }
  }

  /** An event becomes DEAD only with its retries used up, and only after the worker that marks it has,
  since its claim, failed to publish it once more and written it to the DLQ. */
  lemma DeadAfterFailureAndDlq(cfg: Config, es: seq<Event>, j: nat, w: nat, id: nat) returns (i: nat, f: nat, d: nat)
    requires Runs(Initial(cfg), es) && j < |es| && AcceptedMark(es[j], w, id) && es[j].pe.MarkDead?
    ensures i < f < d < j && ClaimedSince(es[..j], w, id, i)
    ensures By(es[f], w) && es[f].pe.Publish? && !es[f].pe.ok
    ensures By(es[d], w) && es[d].pe.PublishDlq? && es[d].pe.ok
    ensures Failures(es[..j], id) == cfg.outboxMaxRetry
  {
    RunsPrefix(Initial(cfg), es, j);
    i, f, d := DlqTrail(cfg, es[..j], w);
    DiesAtLimit(cfg, es[..j], w, es[j].pe);
  }

  lemma DiesAtLimit(cfg: Config, es: seq<Event>, w: nat, e: PublisherEvent)
    requires Runs(Initial(cfg), es) && PublisherEnabled(After(Initial(cfg), es), w, e) && e.MarkDead? && e.applied
    ensures Failures(es, e.eventId) == cfg.outboxMaxRetry
  {
    var s := After(Initial(cfg), es);
    InitialOutboxInv(cfg);
    RunKeepsOutboxInv(Initial(cfg), es);
    RunKeepsConfig(Initial(cfg), es);
    RunCounts(Initial(cfg), es, e.eventId);
    assert PublisherInv(s, PublisherOf(s, w));
  }
}
