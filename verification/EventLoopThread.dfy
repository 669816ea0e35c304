/** The event loop's methods, as the threads that call them run them. */
module EventLoopThreads {
  import opened EventLoops

  lemma {:induction false} RunsOn(s: State, es: seq<Event>, e: Event)
    requires Runs(s, es) && Enabled(After(s, es), e)
    ensures Runs(s, es + [e]) && After(s, es + [e]) == Apply(After(s, es), e)
    decreases |es|
  {
    if es == [] {
      assert [e][1..] == [] && es + [e] == [e];
      assert Runs(Apply(s, e), []);
    } else {
      assert (es + [e])[1..] == es[1..] + [e];
      RunsOn(Apply(s, es[0]), es[1..], e);
    }
  }

  /** The steps a thread other than the loop's takes. */
  predicate OfThread(e: Event, t: Thread) {
    (e.Push? && e.t == t) || (e.QuitBy? && e.t == t) || (e.Write? && e.t == t)
  }

  predicate OfLoop(e: Event) {
    !e.Push? && !e.QuitBy? && !e.Write?
  }

  class EventLoop {
    var st: State
    ghost var history: seq<Event>

    ghost predicate Valid()
      reads this
    {
      Runs(Initial(), history) && st == After(Initial(), history) && QueueInv(st)
    }

    constructor ()
      ensures Valid() && st == Initial() && history == []
    {
      st := Initial();
      history := [];
    }

    method Perform(e: Event)
      requires Valid() && Enabled(st, e)
      modifies this
      ensures Valid() && st == Apply(old(st), e) && history == old(history) + [e]
    {
      RunsOn(Initial(), history, e);
      EventKeepsQueue(st, e);
      st := Apply(st, e);
      history := history + [e];
    }

    /** Whatever other threads do while the loop thread is between two of its steps. */
    method OtherThreads()
      requires Valid()
      modifies this
      ensures Valid() && st.pc == old(st.pc) && st.calling == old(st.calling)
      ensures st.running == old(st.running) && st.executed == old(st.executed)
      ensures old(st.pushed) <= st.pushed && |history| >= |old(history)| && st.counter >= old(st.counter)
      ensures old(st.quit) ==> st.quit
    {
      var steps: int := *;
      while steps > 0
        invariant Valid() && st.pc == old(st.pc) && st.calling == old(st.calling)
        invariant st.running == old(st.running) && st.executed == old(st.executed)
        invariant old(st.pushed) <= st.pushed && |history| >= |old(history)| && st.counter >= old(st.counter)
        invariant old(st.quit) ==> st.quit
      {
        var e: Event := *;
        if !OfLoop(e) && Enabled(st, e) { Perform(e); }
        steps := steps - 1;
      }
    }

    /** Whatever the loop and every thread but `t` do. */
    method AllBut(t: Thread)
      requires Valid()
      modifies this
      ensures Valid() && (t in st.between <==> t in old(st.between))
      ensures old(st.pushed) <= st.pushed && old(history) <= history
    {
      var steps: int := *;
      while steps > 0
        invariant Valid() && (t in st.between <==> t in old(st.between))
        invariant old(st.pushed) <= st.pushed && old(history) <= history
      {
        var e: Event := *;
        if !OfThread(e, t) && Enabled(st, e) { Perform(e); }
        steps := steps - 1;
      }
    }

    /** queueInLoop from another thread: push under the lock, then write to the eventfd. On return the
    functor has a new place in what was pushed, so it has run, or is about to, or is pending; and the
    loop is not asleep over it. */
    method QueueInLoop(t: Thread, f: Functor) returns (ghost i: nat)
      requires Valid() && t !in st.between
      modifies this
      ensures Valid() && t !in st.between && old(st.pushed) <= st.pushed
      ensures |old(st.pushed)| <= i < |st.pushed| && st.pushed[i] == f
      ensures st.pushed == st.executed + st.running + st.pending
      ensures st.pc.Polling? && st.pending != [] ==> st.counter > 0 || st.between != {}
    {
      AllBut(t);
      Perform(Push(t, f));
      i := |st.pushed| - 1;
      ghost var upTo, so := st.pushed, history;
      assert so[|so| - 1] == Push(t, f);
      AllBut(t);
      Perform(Write(t));
      assert st.pushed[i] == upTo[i] == f;
      assert history[|so| - 1] == Push(t, f) && Push(t, f) in history;
      WakeupIff(history);
    }

    /** doPendingFunctors: everything pushed before the swap has run when it returns. */
    method DoPendingFunctors()
      requires Valid() && st.pc == Handling(false)
      modifies this
      ensures Valid() && st.pc.Top? && st.running == [] && !st.calling
      ensures old(st.pushed) <= st.executed <= st.pushed
    {
      Perform(Swap);
      ghost var due := st.executed + st.running;
      assert due == old(st.executed) + [] + old(st.pending);
      while st.running != []
        invariant Valid() && st.pc.Running? && st.executed + st.running == due && old(st.pushed) == due
        decreases |st.running|
      {
        OtherThreads();
        RunFunctor();
      }
      assert st.executed + [] == due;
      Perform(EndPending);
    }

    /** One functor's call; it may queue more, each push followed by a write to the eventfd. */
    method RunFunctor()
      requires Valid() && st.pc.Running? && st.running != []
      modifies this
      ensures Valid() && st.pc.Running?
      ensures st.executed == old(st.executed) + [old(st.running[0])] && st.running == old(st.running[1..])
    {
      Perform(Execute);
      var pushes: int := *;
      while pushes > 0
        invariant Valid() && st.pc.Running?
        invariant st.executed == old(st.executed) + [old(st.running[0])] && st.running == old(st.running[1..])
      {
        var f: Functor := *;
        Perform(FunctorPush(f));
        OtherThreads();
        Perform(LoopWrite);
        OtherThreads();
        pushes := pushes - 1;
      }
    }

    /** The channel handlers of one turn; the wakeup channel's reads the eventfd. */
    method HandleChannels()
      requires Valid() && st.pc.Handling?
      modifies this
      ensures Valid() && st.pc == Handling(false) && old(st.pushed) <= st.pushed
    {
      var pushes: int := *;
      while pushes > 0
        invariant Valid() && st.pc.Handling? && old(st.pushed) <= st.pushed
      {
        var f: Functor := *;
        Perform(OwnerPush(f));
        OtherThreads();
        pushes := pushes - 1;
      }
      if st.pc.wake { Perform(ReadWakeup); }
    }

    /** One turn of the loop: it ends the loop if told to quit, and otherwise everything pushed before
    the turn has run when it ends. */
    method Turn()
      requires Valid() && st.pc.Top?
      modifies this
      ensures Valid() && (st.pc.Top? || st.pc.Exited?) && old(st.pushed) <= st.pushed
      ensures old(st.quit) ==> st.pc.Exited?
      ensures if st.pc.Exited? then st.quit && st.executed == old(st.executed) else old(st.pushed) <= st.executed
    {
      OtherThreads();
      Perform(Enter);
      if st.pc.Exited? { return; }
      OtherThreads();
      Perform(PollReturn(st.counter > 0));
      HandleChannels();
      DoPendingFunctors();
    }

    /** loop(), for up to `turns` turns. */
    method Loop(turns: nat)
      requires Valid() && st.pc.BeforeLoop?
      modifies this
      ensures Valid() && (st.pc.Exited? ==> st.quit)
      ensures st.pc.Top? || st.pc.Exited?
      ensures turns > 0 && st.pc.Top? ==> old(st.pushed) <= st.executed
    {
      Perform(Start);
      var i := 0;
      while i < turns
        invariant i <= turns && Valid() && st.pc.Top? && old(st.pushed) <= st.pushed
        invariant i > 0 ==> old(st.pushed) <= st.executed
      {
        Turn();
        if st.pc.Exited? { return; }
        i := i + 1;
      }
    }
  }
}
