/** The event loop's task queue and its wakeup protocol, over all interleavings. */
module EventLoops {

  type Thread = nat
  type Functor = nat

  const COUNTER_MAX: nat := 0xFFFF_FFFF_FFFF_FFFE

  /** Where the loop thread is. `Handling` is between poll and doPendingFunctors, with the wakeup
  channel still to be handled or not; `Waking` is inside queueInLoop called by a functor. */
  datatype Pc = BeforeLoop | Top | Polling | Handling(wake: bool) | Running | Waking | Exited

  datatype State = State(
    pc: Pc,
    quit: bool,
    calling: bool,
    pending: seq<Functor>,
    running: seq<Functor>,
    counter: nat,
    /** The threads between a push, or setting quit, and their write to the eventfd. */
    between: set<Thread>,
    pushed: seq<Functor>,
    executed: seq<Functor>
  )

  datatype Event =
    | Start
    | Enter
    | PollReturn(wake: bool)
    | ReadWakeup
    | OwnerPush(f: Functor)
    | Swap
    | Execute
    | FunctorPush(f: Functor)
    | LoopWrite
    | EndPending
    | OwnerQuit
    | Push(t: Thread, f: Functor)
    | QuitBy(t: Thread)
    | Write(t: Thread)
    | EarlyPush(f: Functor)

  function Initial(): State {
    State(BeforeLoop, false, false, [], [], 0, {}, [], [])
  }

  predicate Enabled(s: State, e: Event) {
    match e
    case Start => s.pc.BeforeLoop?
    case Enter => s.pc.Top?
    case PollReturn(wake) => s.pc.Polling? && (wake ==> s.counter > 0)
    case ReadWakeup => s.pc == Handling(true)
    case OwnerPush(_) => s.pc.Handling?
    case Swap => s.pc == Handling(false)
    case Execute => s.pc.Running? && s.running != []
    case FunctorPush(_) => s.pc.Running?
    case LoopWrite => s.pc.Waking?
    case EndPending => s.pc.Running? && s.running == []
    case OwnerQuit => s.pc.BeforeLoop? || s.pc.Handling? || s.pc.Running?
    case Push(t, _) => t !in s.between
    case QuitBy(t) => t !in s.between
    case Write(t) => t in s.between
    case EarlyPush(_) => s.pc.BeforeLoop?
  }

  /** A write to the eventfd; a full counter refuses it and stays positive. */
  function Written(counter: nat): nat {
    if counter < COUNTER_MAX then counter + 1 else counter
  }

  function Queued(s: State, f: Functor): State {
    s.(pending := s.pending + [f], pushed := s.pushed + [f])
  }

  function Apply(s: State, e: Event): State
    requires Enabled(s, e)
  {
    match e
    case Start => s.(pc := Top, quit := false)
    case Enter => s.(pc := if s.quit then Exited else Polling)
    case PollReturn(wake) => s.(pc := Handling(wake))
    case ReadWakeup => s.(pc := Handling(false), counter := 0)
    case OwnerPush(f) => Queued(s, f)
    case Swap => s.(pc := Running, calling := true, running := s.pending, pending := [])
    case Execute => s.(running := s.running[1..], executed := s.executed + [s.running[0]])
    case FunctorPush(f) => Queued(s, f).(pc := Waking)
    case LoopWrite => s.(pc := Running, counter := Written(s.counter))
    case EndPending => s.(pc := Top, calling := false)
    case OwnerQuit => s.(quit := true)
    case Push(t, f) => Queued(s, f).(between := s.between + {t})
    case QuitBy(t) => s.(quit := true, between := s.between + {t})
    case Write(t) => s.(counter := Written(s.counter), between := s.between - {t})
    case EarlyPush(f) => Queued(s, f)
  }

  ghost predicate Runs(s: State, es: seq<Event>)
    decreases |es|
  {
    es == [] || (Enabled(s, es[0]) && Runs(Apply(s, es[0]), es[1..]))
  }

  ghost function After(s: State, es: seq<Event>): State
    requires Runs(s, es)
    decreases |es|
  {
    if es == [] then s else After(Apply(s, es[0]), es[1..])
  }

  /** Nothing was queued by the owner before the loop started. */
  ghost predicate NothingEarly(es: seq<Event>) {
    forall e :: e in es ==> !e.EarlyPush?
  }

  // ---------------------------------------------------------------- invariants

  /** The loop will be woken: the eventfd is readable, or a write to it is on its way. */
  predicate WillWake(s: State) {
    s.counter > 0 || s.between != {} || s.pc.Waking?
  }

  /** The loop goes to poll before it next swaps the queue. */
  predicate PollsFirst(s: State) {
    s.pc.BeforeLoop? || s.pc.Top? || s.pc.Polling? || s.pc.Running? || s.pc.Waking?
  }

  predicate QueueInv(s: State) {
    && s.pushed == s.executed + s.running + s.pending
    && (s.running != [] ==> s.pc.Running? || s.pc.Waking?)
    && (s.calling <==> s.pc.Running? || s.pc.Waking?)
  }

  lemma EventKeepsQueue(s: State, e: Event)
    requires Enabled(s, e) && QueueInv(s)
    ensures QueueInv(Apply(s, e))
  {
    var t := Apply(s, e);
    match e
    case Execute => assert s.executed + s.running == t.executed + t.running;
    case _ =>
  }

  lemma {:induction false} RunKeeps(s: State, es: seq<Event>)
    requires Runs(s, es) && QueueInv(s)
    ensures QueueInv(After(s, es))
    decreases |es|
  {
    if es != [] {
      EventKeepsQueue(s, es[0]);
      RunKeeps(Apply(s, es[0]), es[1..]);
    }
  }

  // ---------------------------------------------------------------- who wakes the loop

  /** The steps after which the wakeup protocol is in force: another thread's push or quit writes to the
  eventfd, and the first swap leaves nothing behind. */
  predicate Arms(e: Event) {
    e.Swap? || e.Push? || e.QuitBy?
  }

  ghost predicate Armed(es: seq<Event>) {
    exists e :: e in es && Arms(e)
  }

  /** Before that nobody writes. */
  predicate Silent(s: State) {
    s.counter == 0 && s.between == {} && !s.pc.Running? && !s.pc.Waking?
  }

  /** From then on whatever is pending when the loop goes to poll wakes it. */
  predicate WakeInv(s: State) {
    PollsFirst(s) && (s.pending != [] || s.pc.BeforeLoop?) ==> WillWake(s)
  }

  predicate QuitInv(s: State) {
    s.pc.Polling? && s.quit ==> WillWake(s)
  }

  lemma EventKeepsWake(s: State, e: Event)
    requires Enabled(s, e) && (WakeInv(s) || Arms(e))
    ensures WakeInv(Apply(s, e))
  {
    match e
    case Push(t, _) => assert t in Apply(s, e).between;
    case QuitBy(t) => assert t in Apply(s, e).between;
    case _ =>
  }

  lemma EventKeepsQuit(s: State, e: Event)
    requires Enabled(s, e) && QuitInv(s)
    ensures QuitInv(Apply(s, e))
  {
    match e
    case Push(t, _) => assert t in Apply(s, e).between;
    case QuitBy(t) => assert t in Apply(s, e).between;
    case _ =>
  }

  lemma {:induction false} RunKeepsQuit(s: State, es: seq<Event>)
    requires Runs(s, es) && QuitInv(s)
    ensures QuitInv(After(s, es))
    decreases |es|
  {
    if es != [] {
      EventKeepsQuit(s, es[0]);
      RunKeepsQuit(Apply(s, es[0]), es[1..]);
    }
  }

  lemma {:induction false} RunKeepsWake(s: State, es: seq<Event>)
    requires Runs(s, es) && (WakeInv(s) || Armed(es))
    ensures WakeInv(After(s, es))
    decreases |es|
  {
    if es != [] {
      if WakeInv(s) || Arms(es[0]) {
        EventKeepsWake(s, es[0]);
      } else {
        var e :| e in es && Arms(e);
        assert e in es[1..];
      }
      RunKeepsWake(Apply(s, es[0]), es[1..]);
    }
  }

  /** An unarmed run stays silent; what it has pending at poll was queued before the loop started. */
  lemma {:induction false} UnarmedIsSilent(s: State, es: seq<Event>)
    requires Runs(s, es) && Silent(s) && !Armed(es)
    ensures Silent(After(s, es))
    ensures NothingEarly(es) && !(PollsFirst(s) && s.pending != []) ==>
              !(PollsFirst(After(s, es)) && After(s, es).pending != [])
    decreases |es|
  {
    if es != [] {
      assert es[0] in es;
      assert Silent(Apply(s, es[0]));
      assert forall e :: e in es[1..] ==> e in es;
      UnarmedIsSilent(Apply(s, es[0]), es[1..]);
    }
  }

  // ---------------------------------------------------------------- theorems

  /** Exactly when a wakeup is lost, in every run: at poll with functors pending, the eventfd is readable
  or some thread is between its push and its write if and only if the loop has swapped its queue once or
  another thread has pushed or told it to quit. At poll and told to quit, it is always so. */
  lemma WakeupIff(es: seq<Event>)
    requires Runs(Initial(), es)
    ensures var s := After(Initial(), es);
            && (s.pc.Polling? && s.pending != [] ==> (s.counter > 0 || s.between != {} <==> Armed(es)))
            && (s.pc.Polling? && s.quit ==> s.counter > 0 || s.between != {})
  {
    RunKeepsQuit(Initial(), es);
    if Armed(es) {
      RunKeepsWake(Initial(), es);
    } else {
      UnarmedIsSilent(Initial(), es);
    }
  }

  /** No lost wakeup: if nothing was queued by the owner before the loop started, then whenever the loop
  is at poll with functors pending, or told to quit, the eventfd is readable or some thread is between
  its push and its write. */
  lemma NoLostWakeup(es: seq<Event>)
    requires Runs(Initial(), es) && NothingEarly(es)
    ensures var s := After(Initial(), es);
            s.pc.Polling? && (s.pending != [] || s.quit) ==> s.counter > 0 || s.between != {}
  {
    WakeupIff(es);
    if !Armed(es) { UnarmedIsSilent(Initial(), es); }
  }

  /** An unarmed run that sleeps: a functor the owner queues before the loop starts does not wake it. */
  lemma EarlyPushSleeps(f: Functor)
    ensures var es := [EarlyPush(f), Start, Enter];
            Runs(Initial(), es) && var s := After(Initial(), es);
            s.pc.Polling? && s.pending == [f] && s.counter == 0 && s.between == {}
  {
    var s1 := Apply(Initial(), EarlyPush(f));
    var s2 := Apply(s1, Start);
    assert [EarlyPush(f), Start, Enter][1..] == [Start, Enter] && [Start, Enter][1..] == [Enter] && [Enter][1..] == [];
    assert Runs(s2, [Enter]);
    assert Runs(s1, [Start, Enter]);
  }

  /** Functors run once each, in push order: what has run, what is about to run and what is pending are,
  in that order, exactly what was pushed. */
  lemma RunOnceInOrder(es: seq<Event>)
    requires Runs(Initial(), es)
    ensures var s := After(Initial(), es);
            s.pushed == s.executed + s.running + s.pending && (s.pc.Polling? ==> s.running == [])
  {
    RunKeeps(Initial(), es);
  }

  /** What is swapped out is never put back. */
  lemma {:induction false} TakenStaysTaken(s: State, es: seq<Event>)
    requires Runs(s, es) && QueueInv(s)
    ensures |After(s, es).executed| + |After(s, es).running| >= |s.executed| + |s.running|
    ensures s.pushed <= After(s, es).pushed
    decreases |es|
  {
    if es != [] {
      EventKeepsQueue(s, es[0]);
      TakenStaysTaken(Apply(s, es[0]), es[1..]);
    }
  }

  /** Everything pushed by the time the loop swaps its queue has run by the time it polls again. */
  lemma ServedBeforeNextPoll(s: State, es: seq<Event>)
    requires QueueInv(s) && s.pc == Handling(false) && Runs(Apply(s, Swap), es) && After(Apply(s, Swap), es).pc.Polling?
    ensures s.pushed <= After(Apply(s, Swap), es).executed
  {
    var s1 := Apply(s, Swap);
    EventKeepsQueue(s, Swap);
    TakenStaysTaken(s1, es);
    RunKeeps(s1, es);
    var end := After(s1, es);
    assert end.executed <= end.pushed && s1.executed + s1.running == s.executed + s.pending == s.pushed;
    assert |end.executed| >= |s.pushed|;
  }

  /** From poll with something pending in an armed run, the loop is not stuck: either the poll returns, or the write
  that will make it return can go ahead. */
  lemma WakesUp(es: seq<Event>) returns (e: Event)
    requires Runs(Initial(), es) && Armed(es)
    requires var s := After(Initial(), es); s.pc.Polling? && s.pending != []
    ensures var s := After(Initial(), es);
            Enabled(s, e) && (e == PollReturn(true) || (e.Write? && Enabled(Apply(s, e), PollReturn(true))))
  {
    WakeupIff(es);
    var s := After(Initial(), es);
    if s.counter > 0 {
      e := PollReturn(true);
    } else {
      var t :| t in s.between;
      e := Write(t);
    }
  }

  // ---------------------------------------------------------------- which quit requests count

  predicate Quits(e: Event) {
    e.OwnerQuit? || e.QuitBy?
  }

  /** Some quit request was made and the loop has not been started since. */
  ghost predicate QuitCounts(es: seq<Event>) {
    exists i :: 0 <= i < |es| && Quits(es[i]) && forall j :: i < j < |es| ==> !es[j].Start?
  }

  lemma QuitOn(es: seq<Event>, e: Event)
    ensures QuitCounts(es + [e]) <==> Quits(e) || (!e.Start? && QuitCounts(es))
  {
    var all := es + [e];
    if Quits(e) { assert Quits(all[|es|]); }
    if QuitCounts(es) && !e.Start? {
      var i :| 0 <= i < |es| && Quits(es[i]) && forall j :: i < j < |es| ==> !es[j].Start?;
      assert Quits(all[i]) && forall j :: i < j < |all| ==> !all[j].Start?;
    }
    if QuitCounts(all) && !Quits(e) {
      var i :| 0 <= i < |all| && Quits(all[i]) && forall j :: i < j < |all| ==> !all[j].Start?;
      assert all[|es|] == e && i < |es|;
      assert Quits(es[i]) && forall j :: i < j < |es| ==> es[j] == all[j] && !es[j].Start?;
    }
  }

  lemma {:induction false} RunsFront(s: State, es: seq<Event>, e: Event)
    requires Runs(s, es + [e])
    ensures Runs(s, es) && Enabled(After(s, es), e) && After(s, es + [e]) == Apply(After(s, es), e)
    decreases |es|
  {
    if es == [] {
      assert es + [e] == [e] && [e][1..] == [];
    } else {
      assert (es + [e])[1..] == es[1..] + [e];
      RunsFront(Apply(s, es[0]), es[1..], e);
    }
  }

  /** The flag is set if and only if a quit was asked for and the loop was not started since: loop()
  forgets what was asked before it. Nothing else ends the loop. */
  lemma {:induction false} QuitFlag(es: seq<Event>)
    requires Runs(Initial(), es)
    ensures After(Initial(), es).quit <==> QuitCounts(es)
    ensures After(Initial(), es).pc.Exited? ==> QuitCounts(es)
    decreases |es|
  {
    if es != [] {
      var front, e := es[..|es| - 1], es[|es| - 1];
      assert es == front + [e];
      RunsFront(Initial(), front, e);
      QuitFlag(front);
      QuitOn(front, e);
    }
  }

  /** The loop ends at the next turn if and only if a quit was asked for since it was started. */
  lemma ExitIff(es: seq<Event>)
    requires Runs(Initial(), es + [Enter])
    ensures After(Initial(), es + [Enter]).pc.Exited? <==> QuitCounts(es)
  {
    RunsFront(Initial(), es, Enter);
    QuitFlag(es);
  }

  /** A request that is lost: another thread asks for a quit and writes to the eventfd, then the loop
  starts. It goes to poll and is awake, but is not told to quit. */
  lemma EarlyQuitForgotten(t: Thread)
    ensures var es := [QuitBy(t), Write(t), Start, Enter];
            Runs(Initial(), es) && var s := After(Initial(), es); s.pc.Polling? && !s.quit && s.counter > 0
  {
    var es := [QuitBy(t), Write(t), Start, Enter];
    var s1 := Apply(Initial(), QuitBy(t));
    var s2 := Apply(s1, Write(t));
    var s3 := Apply(s2, Start);
    assert es[1..] == [Write(t), Start, Enter] && es[1..][1..] == [Start, Enter];
    assert [Start, Enter][1..] == [Enter] && [Enter][1..] == [];
    assert Runs(s3, [Enter]) && After(s3, [Enter]) == Apply(s3, Enter);
    assert Runs(s2, [Start, Enter]) && After(s2, [Start, Enter]) == Apply(s3, Enter);
    assert Runs(s1, es[1..]) && After(s1, es[1..]) == Apply(s3, Enter);
  }
}
