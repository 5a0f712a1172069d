/** What holds of whole schedules of a registry: safety, progress, termination, and the final state. */
module Schedules {
  import opened Sequences
  import opened Callbacks
  import opened Capacity
  import opened Registry
  import opened Threads
  import opened ThreadPhases
  import opened ThreadLedger
  import opened ThreadOrder

  /** Fewer callbacks than the registry is meant for, counting all that is ever registered. */
  predicate Fits(s: System)
  {
    |Ledger(s)| < MAX_CALLBACKS
  }

  ghost predicate Inv(s: System)
  {
    PhaseInv(s) && OrderInv(s) && Fits(s)
  }

  lemma {:induction false} InvInitially(s: System)
    requires Initial(s) && Fits(s)
    ensures Inv(s)
  {
    PhaseInitially(s);
    OrderInitially(s);
  }

  lemma {:induction false} InvStep(s: System, i: nat)
    requires Inv(s) && Enabled(s, i)
    ensures Inv(Step(s, i))
    ensures Ledger(Step(s, i)) == Ledger(s)
    ensures 0 <= Cost(Step(s, i)) < Cost(s)
  {
    QueueBound(s);
    PhaseStep(s, i);
    OrderStep(s, i);
    LedgerStep(s, i);
    CostStep(s, i);
    CostNonNegative(Step(s, i));
  }

  /** The limit counts what the threads register, and what their callbacks do. */
  lemma {:induction false} FitsMeans(s: System)
    requires Initial(s)
    ensures Fits(s) <==> |ThreadsNodes(s.threads)| < 0x8000_0000
  {
    assert StartedCallbacks([]) == [];
  }

  /** Every schedule keeps the invariants and the ledger, and is bounded by the work at its start. */
  lemma {:induction false} EverySchedule(s: System, schedule: seq<nat>)
    requires Inv(s) && Possible(s, schedule)
    ensures Inv(After(s, schedule))
    ensures Ledger(After(s, schedule)) == Ledger(s)
    ensures |schedule| + Cost(After(s, schedule)) <= Cost(s)
    ensures After(s, schedule).kind == s.kind
    decreases schedule
  {
    if schedule != [] {
      InvStep(s, schedule[0]);
      EverySchedule(Step(s, schedule[0]), schedule[1..]);
    }
  }

  /** Nobody waits for ever: while a thread has anything left to do, some thread can step. */
  lemma {:induction false} NoDeadlock(s: System)
    requires LockInv(s) && !Idle(s)
    ensures exists i: nat :: Enabled(s, i)
  {
    if s.shared.lock.Held? {
      var k := s.shared.lock.thread;
      assert HoldsLock(s.threads[k]);
      assert Enabled(s, k);
    } else {
      var i :| 0 <= i < |s.threads| && s.threads[i] != [];
      assert Enabled(s, i);
    }
  }

  /** No thread waits for a lock that it holds itself. */
  lemma {:induction false} NoSelfDeadlock(s: System, i: nat)
    requires LockInv(s) && i < |s.threads| && s.threads[i] != []
    requires Waits(Last(s.threads[i]))
    ensures s.shared.lock != Held(i)
  {
    assert HoldsLock(s.threads[i]) <==> s.shared.lock == Held(i);
  }

  /** The queue and the block's size change only in steps of the thread that holds the lock. */
  lemma {:induction false} QueueChangesUnderLock(s: System, i: nat)
    requires LockInv(s) && Enabled(s, i)
    requires Step(s, i).shared.vars != s.shared.vars
    ensures s.shared.lock == Held(i)
  {
    assert HoldsLock(s.threads[i]) <==> s.shared.lock == Held(i);
  }

  /**
    Nor does a thread that does not hold the lock read them: its step is the same
    whatever they are.
   */
  lemma {:induction false} QueueIsReadUnderLock(s: System, i: nat, v: Vars)
    requires LockInv(s) && Enabled(s, i) && s.shared.lock != Held(i)
    ensures var t := s.(shared := s.shared.(vars := v));
      Enabled(t, i) && Step(t, i) == Step(s, i).(shared := Step(s, i).shared.(vars := v))
  {
    assert HoldsLock(s.threads[i]) <==> s.shared.lock == Held(i);
  }

  /** A thread that starts a callback does not hold the lock, so what the callback registers can take it. */
  lemma {:induction false} CallsAreUnlocked(s: System, i: nat)
    requires LockInv(s) && Enabled(s, i)
    requires Step(s, i).shared.started != s.shared.started
    ensures s.shared.lock != Held(i)
  {
    assert HoldsLock(s.threads[i]) <==> s.shared.lock == Held(i);
  }

  /**
    At every point of every schedule where the lock is free, the stored fields
    tell the phase: a registration runs at once exactly when the run has begun
    and nothing is queued.
   */
  lemma {:induction false} FieldsTellThePhase(s: System, schedule: seq<nat>)
    requires Initial(s) && Fits(s) && Possible(s, schedule)
    ensures var g := After(s, schedule).shared;
      g.lock == Free ==> (RunsAtOnce(g.vars) <==> g.begun && g.vars.stack == [])
  {
    InvInitially(s);
    EverySchedule(s, schedule);
    var e := After(s, schedule);
    if e.shared.lock == Free {
      if e.threads[0] != [] {
        TestIsAdequate(e, 0);
      } else {
        assert NoRunner(e.threads[0]);
      }
    }
  }

  lemma {:induction false} EmptyStaysEmpty(s: System, schedule: seq<nat>)
    requires Inv(s) && Possible(s, schedule)
    requires s.shared.begun && s.shared.vars.stack == []
    ensures After(s, schedule).shared.begun && After(s, schedule).shared.vars.stack == []
    decreases schedule
  {
    if schedule != [] {
      InvStep(s, schedule[0]);
      EmptinessStep(s, schedule[0]);
      EmptyStaysEmpty(Step(s, schedule[0]), schedule[1..]);
    }
  }

  /** Once a run has emptied the queue, it stays empty through every schedule of all the threads. */
  lemma {:induction false} EmptinessIsAbsorbing(s: System, earlier: seq<nat>, later: seq<nat>)
    requires Initial(s) && Fits(s) && Possible(s, earlier) && Possible(After(s, earlier), later)
    requires After(s, earlier).shared.begun && After(s, earlier).shared.vars.stack == []
    ensures After(After(s, earlier), later).shared.vars.stack == []
  {
    InvInitially(s);
    EverySchedule(s, earlier);
    EmptyStaysEmpty(After(s, earlier), later);
  }

  lemma {:induction false} DrainedStays(s: System, schedule: seq<nat>)
    requires Inv(s) && Possible(s, schedule) && NoRunner(s.threads[0])
    ensures After(s, schedule).shared.vars == DRAINED
    decreases schedule
  {
    if schedule != [] {
      InvStep(s, schedule[0]);
      DrainedStep(s, schedule[0]);
      DrainedStays(Step(s, schedule[0]), schedule[1..]);
    }
  }

  lemma {:induction false} DrainedIsOver(s: System)
    requires Inv(s) && s.shared.lock == Free && s.shared.vars == DRAINED
    ensures NoRunner(s.threads[0])
  {
    var t := s.threads[0];
    assert HoldsLock(t) <==> s.shared.lock == Held(0);
    if RunPending(t) {
      RunnerOnTop(t);
    }
  }

  /** A registry that is drained and unlocked stays drained through every schedule. */
  lemma {:induction false} DrainedIsAbsorbing(s: System, earlier: seq<nat>, later: seq<nat>)
    requires Initial(s) && Fits(s) && Possible(s, earlier) && Possible(After(s, earlier), later)
    requires After(s, earlier).shared.vars == DRAINED && After(s, earlier).shared.lock == Free
    ensures After(After(s, earlier), later).shared.vars == DRAINED
  {
    InvInitially(s);
    EverySchedule(s, earlier);
    DrainedIsOver(After(s, earlier));
    DrainedStays(After(s, earlier), later);
  }

  /** No callback starts before the run has begun. */
  lemma {:induction false} NothingStartsBeforeTheRun(s: System, schedule: seq<nat>)
    requires Initial(s) && Fits(s) && Possible(s, schedule)
    requires After(s, schedule).shared.started != []
    ensures After(s, schedule).shared.begun
  {
    InvInitially(s);
    EverySchedule(s, schedule);
  }

  /**
    At every point of every schedule, the callbacks that were queued before the
    run and have started did so in the run's order.
   */
  lemma {:induction false} EarlyStartsAreOrdered(s: System, schedule: seq<nat>)
    requires Initial(s) && Fits(s) && Possible(s, schedule)
    ensures var e := After(s, schedule);
      e.shared.begun ==> StartsOf(Early, e.shared.started) <= RunOrder(s.kind, e.shared.queue)
  {
    InvInitially(s);
    EverySchedule(s, schedule);
    var e := After(s, schedule);
    if e.shared.begun {
      var sorted := Prepared(e.kind, e.shared.queue);
      PreparedProperties(e.kind, e.shared.queue);
      ReversePrefix(sorted, e.shared.early);
      assert StartsOf(Early, e.shared.started) <= Reverse(sorted[e.shared.early..]);
    }
  }

  lemma {:induction false} ReversePrefix<T>(s: seq<T>, k: nat)
    requires k <= |s|
    ensures Reverse(s[k..]) <= Reverse(s)
  {
    assert s == s[..k] + s[k..];
    ReverseConcat(s[..k], s[k..]);
  }

  lemma {:induction false} IdleLedger(s: System)
    requires Idle(s)
    ensures ThreadsNodes(s.threads) == multiset{}
  {
    IdleThreads(s.threads);
  }

  lemma {:induction false} IdleThreads(ts: seq<Thread>)
    requires forall i :: 0 <= i < |ts| ==> ts[i] == []
    ensures ThreadsNodes(ts) == multiset{}
  {
    if ts != [] {
      IdleThreads(ts[1..]);
    }
  }

  /** What the threads of an initial system register in all, counting what their callbacks register. */
  function ToRegister(s: System): multiset<Callback>
  {
    ThreadsNodes(s.threads)
  }

  /**
    Every schedule ends, after no more steps than the work at its start, and
    when no thread can step any more, all threads are done, the registry is
    drained, everything that anyone registered has started exactly once, and
    what was queued before the run has started in the run's order.
   */
  lemma {:induction false} EveryCompleteSchedule(s: System, schedule: seq<nat>)
    requires Initial(s) && Fits(s) && Possible(s, schedule)
    ensures |schedule| <= Cost(s)
    ensures var e := After(s, schedule);
      (forall i: nat :: !Enabled(e, i)) ==>
        && Idle(e)
        && e.shared.vars == DRAINED && e.shared.lock == Free
        && multiset(StartedCallbacks(e.shared.started)) == ToRegister(s)
        && StartsOf(Early, e.shared.started) == RunOrder(s.kind, e.shared.queue)
  {
    InvInitially(s);
    EverySchedule(s, schedule);
    var e := After(s, schedule);
    CostNonNegative(e);
    if forall i: nat :: !Enabled(e, i) {
      if !Idle(e) {
        NoDeadlock(e);
      }
      AtTheEnd(e);
      assert StartedCallbacks([]) == [];
    }
  }

  /** From every point of every schedule, some way of going on ends. */
  lemma {:induction false} Completes(s: System) returns (schedule: seq<nat>)
    requires Inv(s)
    ensures Possible(s, schedule) && forall i: nat :: !Enabled(After(s, schedule), i)
    decreases Cost(s)
  {
    schedule := [];
    if i: nat :| Enabled(s, i) {
      CostNonNegative(s);
      InvStep(s, i);
      var rest := Completes(Step(s, i));
      schedule := [i] + rest;
      ConcatTail([i], rest);
    }
  }

  lemma {:induction false} StartedGrows(s: System, schedule: seq<nat>)
    requires Possible(s, schedule)
    ensures s.shared.started <= After(s, schedule).shared.started
    decreases schedule
  {
    if schedule != [] {
      StartedGrows(Step(s, schedule[0]), schedule[1..]);
    }
  }

  lemma {:induction false} OwnerIsActive(s: System)
    requires LockInv(s)
    ensures s.shared.lock.Held? ==> !Idle(s)
  {
    if s.shared.lock.Held? {
      assert HoldsLock(s.threads[s.shared.lock.thread]);
    }
  }

  /** The final state of a system whose threads are all done. */
  lemma {:induction false} AtTheEnd(e: System)
    requires Inv(e) && Idle(e)
    ensures e.shared.vars == DRAINED && e.shared.lock == Free
    ensures multiset(StartedCallbacks(e.shared.started)) == Ledger(e)
    ensures StartsOf(Early, e.shared.started) == RunOrder(e.kind, e.shared.queue)
  {
    assert e.threads[0] == [];
    IdleLedger(e);
    PreparedProperties(e.kind, e.shared.queue);
    var sorted := Prepared(e.kind, e.shared.queue);
    assert sorted[0..] == sorted;
    OwnerIsActive(e);
  }
}
