/**
  The order in which the run takes callbacks, whatever the threads do: always the
  one that was queued last and has not been taken, and not before the one taken
  before it has returned.
 */
module RunDiscipline {
  import opened Sequences
  import opened Callbacks
  import opened Registry
  import opened Threads
  import opened ThreadPhases
  import opened ThreadOrder
  import opened Schedules
  import opened LateRegistrations

  /** What an observer of the registry sees of a run. */
  datatype Op =
    | Begins(queue: seq<Callback>)      // the run begins, with this queued
    | Registers(c: Callback)            // some thread registers during the run
    | Takes(c: Callback)                // the run takes a callback

  function StepOps(s: System, i: nat): seq<Op>
    requires Enabled(s, i)
  {
    var top := Last(s.threads[i]);
    var fs := Act(s.kind, s.shared, i, top).1;
    if top.Sort? then [Begins(s.shared.vars.stack)]
    else if RegistersInRun(s, i) then [Registers(top.c)]
    else if fs != [] && Last(fs).Taken? then [Takes(Last(fs).c)]
    else []
  }

  function Ops(s: System, schedule: seq<nat>): seq<Op>
    requires Possible(s, schedule)
    decreases schedule
  {
    if schedule == [] then [] else StepOps(s, schedule[0]) + Ops(Step(s, schedule[0]), schedule[1..])
  }

  /**
    Every callback that is queued when the run begins or registered during it is
    taken, and always the last of those that are still to be taken; `pending` are
    those at the start.
   */
  predicate LastFirst(kind: Kind, ops: seq<Op>, pending: seq<Callback>)
    decreases |ops|
  {
    if ops == [] then pending == []
    else
      match ops[0]
      case Begins(queue) => pending == [] && LastFirst(kind, ops[1..], Prepared(kind, queue))
      case Registers(c) => LastFirst(kind, ops[1..], pending + [c])
      case Takes(c) => pending != [] && Last(pending) == c && LastFirst(kind, ops[1..], Init(pending))
  }

  /** What is still to be taken, as far as the registry knows. */
  function Pending(s: System): seq<Callback>
  {
    if s.shared.begun then s.shared.vars.stack else []
  }

  lemma {:induction false} LastFirstNext(kind: Kind, op: Op, rest: seq<Op>, pending: seq<Callback>)
    ensures LastFirst(kind, [op] + rest, pending) <==>
      match op
      case Begins(queue) => pending == [] && LastFirst(kind, rest, Prepared(kind, queue))
      case Registers(c) => LastFirst(kind, rest, pending + [c])
      case Takes(c) => pending != [] && Last(pending) == c && LastFirst(kind, rest, Init(pending))
  {
    ConcatTail([op], rest);
    TailOne(op);
    EmptyConcat(rest);
  }

  /** What a step of the run shows is what it does to the queue. */
  lemma {:induction false} LoopOps(s: System, i: nat)
    requires PhaseInv(s) && Enabled(s, i) && Last(s.threads[i]).Loop?
    ensures s.shared.begun && Step(s, i).shared.begun
    ensures s.shared.vars.stack == [] ==> StepOps(s, i) == [] && Step(s, i).shared.vars.stack == []
    ensures s.shared.vars.stack != [] ==>
      && StepOps(s, i) == [Takes(Last(s.shared.vars.stack))]
      && Step(s, i).shared.vars.stack == Init(s.shared.vars.stack)
  {
    RunnerIsFirst(s, i);
    RunMoves(s);
    ActLoop(s.kind, s.shared, i);
    if s.shared.vars.stack != [] {
      assert Last(s.shared.vars.stack) in s.shared.vars.stack;
    }
  }

  lemma {:induction false} SortOps(s: System, i: nat)
    requires PhaseInv(s) && Enabled(s, i) && Last(s.threads[i]).Sort?
    ensures !s.shared.begun && Step(s, i).shared.begun
    ensures StepOps(s, i) == [Begins(s.shared.vars.stack)]
    ensures Step(s, i).shared.vars.stack == Prepared(s.kind, s.shared.vars.stack)
  {
    RunnerIsFirst(s, i);
    RunMoves(s);
  }

  lemma {:induction false} TestOps(s: System, i: nat)
    requires PhaseInv(s) && Enabled(s, i) && Last(s.threads[i]).Test?
    ensures var c := Last(s.threads[i]).c;
      && Step(s, i).shared.begun == s.shared.begun
      && StepOps(s, i) == (if RegistersInRun(s, i) then [Registers(c)] else [])
      && (s.shared.begun && s.shared.vars.stack != [] ==>
            RegistersInRun(s, i) && Step(s, i).shared.vars.stack == s.shared.vars.stack + [c])
      && (s.shared.begun && s.shared.vars.stack == [] ==> Step(s, i).shared.vars.stack == [])
  {
    TestIsAdequate(s, i);
  }

  lemma {:induction false} QuietOps(s: System, i: nat)
    requires Enabled(s, i)
    requires var f := Last(s.threads[i]); !f.Loop? && !f.Sort? && !f.Test?
    ensures StepOps(s, i) == [] && Pending(Step(s, i)) == Pending(s)
    ensures Step(s, i).shared.begun == s.shared.begun
  {
  }

  // ----- no registration finds nothing queued -----

  /** Unless a registration finds nothing queued, a step shows what it does to what is pending. */
  lemma {:induction false} PendingStep(s: System, i: nat, rest: seq<Op>)
    requires PhaseInv(s) && Enabled(s, i) && !FindsNothing(s, i)
    ensures LastFirst(s.kind, StepOps(s, i) + rest, Pending(s))
       <==> LastFirst(s.kind, rest, Pending(Step(s, i)))
  {
    EmptyConcat(rest);
    if StepOps(s, i) != [] {
      LastFirstNext(s.kind, StepOps(s, i)[0], rest, Pending(s));
    }
    match Last(s.threads[i])
    case Loop => LoopOps(s, i);
    case Sort => SortOps(s, i);
    case Test(_) => TestOps(s, i);
    case _ => QuietOps(s, i);
  }

  // ----- once one does, it is never taken -----

  lemma {:induction false} EmptyQueueOps(s: System, i: nat)
    requires PhaseInv(s) && Enabled(s, i) && s.shared.begun && s.shared.vars.stack == []
    ensures StepOps(s, i) == [] || (|StepOps(s, i)| == 1 && StepOps(s, i)[0].Registers?)
  {
    match Last(s.threads[i])
    case Loop => LoopOps(s, i);
    case Sort => SortOps(s, i);
    case Test(_) => TestOps(s, i);
    case _ => QuietOps(s, i);
  }

  lemma {:induction false} NeverTaken(s: System, schedule: seq<nat>, pending: seq<Callback>)
    requires Inv(s) && Possible(s, schedule)
    requires s.shared.begun && s.shared.vars.stack == [] && pending != []
    ensures !LastFirst(s.kind, Ops(s, schedule), pending)
    decreases schedule
  {
    if schedule != [] {
      var i, rest := schedule[0], schedule[1..];
      var ops := StepOps(s, i);
      InvStep(s, i);
      EmptinessStep(s, i);
      EmptyQueueOps(s, i);
      if ops == [] {
        EmptyConcat(Ops(Step(s, i), rest));
        NeverTaken(Step(s, i), rest, pending);
      } else {
        LastFirstNext(s.kind, ops[0], Ops(Step(s, i), rest), pending);
        NeverTaken(Step(s, i), rest, pending + [ops[0].c]);
      }
    }
  }

  lemma {:induction false} MissedIsNeverTaken(s: System, schedule: seq<nat>)
    requires Inv(s) && Possible(s, schedule) && schedule != [] && FindsNothing(s, schedule[0])
    ensures !LastFirst(s.kind, Ops(s, schedule), Pending(s))
  {
    var i, rest := schedule[0], schedule[1..];
    var c := Last(s.threads[i]).c;
    InvStep(s, i);
    EmptinessStep(s, i);
    LastFirstNext(s.kind, Registers(c), Ops(Step(s, i), rest), Pending(s));
    NeverTaken(Step(s, i), rest, Pending(s) + [c]);
  }

  // ----- whole schedules -----

  lemma {:induction false} PendingIff(s: System, schedule: seq<nat>)
    requires Inv(s) && Possible(s, schedule) && Idle(After(s, schedule))
    ensures LastFirst(s.kind, Ops(s, schedule), Pending(s)) <==> !SomeFindsNothing(s, schedule)
    decreases schedule
  {
    if schedule == [] {
      AtTheEnd(s);
    } else if FindsNothing(s, schedule[0]) {
      MissedIsNeverTaken(s, schedule);
    } else {
      InvStep(s, schedule[0]);
      PendingStep(s, schedule[0], Ops(Step(s, schedule[0]), schedule[1..]));
      PendingIff(Step(s, schedule[0]), schedule[1..]);
    }
  }

  /**
    Over every complete schedule of any number of threads, all that is queued
    before the run or registered during it is taken by the run, each time the
    last registered of what is left, the callbacks queued before the run in the
    run's order, if and only if no registration finds nothing queued.
   */
  lemma {:induction false} LastRegisteredFirstIff(s: System, schedule: seq<nat>)
    requires Initial(s) && Fits(s) && Possible(s, schedule)
    requires forall i: nat :: !Enabled(After(s, schedule), i)
    ensures LastFirst(s.kind, Ops(s, schedule), []) <==> !SomeFindsNothing(s, schedule)
  {
    InvInitially(s);
    EveryCompleteSchedule(s, schedule);
    PendingIff(s, schedule);
  }

  // ----- what the run takes, it calls, one at a time -----

  function TakenIn(ops: seq<Op>): seq<Callback>
  {
    if ops == [] then [] else (if ops[0].Takes? then [ops[0].c] else []) + TakenIn(ops[1..])
  }

  /** What the run has called, in order. */
  function ByRun(ss: seq<Started>): seq<Callback>
  {
    if ss == [] then [] else ByRun(Init(ss)) + (if Last(ss).how == AtOnce then [] else [Last(ss).c])
  }

  /** What the run has taken and is about to call. */
  function RunHand(t: Thread): seq<Callback>
  {
    InHand(Early, t) + InHand(Late, t)
  }

  lemma {:induction false} TakenInConcat(a: seq<Op>, b: seq<Op>)
    ensures TakenIn(a + b) == TakenIn(a) + TakenIn(b)
  {
    if a == [] {
      EmptyConcat(b);
      EmptyConcat(TakenIn(b));
    } else {
      ConcatTail(a, b);
      TakenInConcat(a[1..], b);
      ConcatAssoc(if a[0].Takes? then [a[0].c] else [], TakenIn(a[1..]), TakenIn(b));
    }
  }

  lemma {:induction false} TakenInOne(op: Op)
    ensures TakenIn([op]) == if op.Takes? then [op.c] else []
  {
    TailOne(op);
    EmptyConcat(if op.Takes? then [op.c] else []);
  }

  lemma {:induction false} ByRunAppend(ss: seq<Started>, x: Started)
    ensures ByRun(ss + [x]) == ByRun(ss) + (if x.how == AtOnce then [] else [x.c])
  {
    Appended(ss, x);
  }

  lemma {:induction false} HandOfCall(c: Callback, how: How)
    ensures RunHand([Call(c, how)]) == (if how == AtOnce then [] else [c]) == RunHand([Taken(c, how)])
  {
  }

  lemma {:induction false} HandOfOther(f: Frame)
    requires !f.Call? && !f.Taken?
    ensures RunHand([f]) == []
  {
  }

  lemma {:induction false} HandOfTop(t: Thread)
    requires t != []
    ensures RunHand(t) == RunHand([Last(t)])
  {
  }

  lemma {:induction false} RunHandAfter(s: System, i: nat)
    requires PhaseInv(s) && CallerInv(s) && OrderInv(s) && Enabled(s, i)
    ensures RunHand(Step(s, i).threads[0])
         == if i == 0 then RunHand(Act(s.kind, s.shared, i, Last(s.threads[i])).1) else RunHand(s.threads[0])
    ensures i != 0 ==> RunHand(s.threads[i]) == []
  {
    HandAfter(Early, s, i);
    HandAfter(Late, s, i);
  }

  /** Every callback that a step takes is in the hand of the run, until it is called. */
  lemma {:induction false} CallStep(s: System, i: nat)
    requires PhaseInv(s) && CallerInv(s) && OrderInv(s) && Enabled(s, i) && Last(s.threads[i]).Call?
    ensures StepOps(s, i) == []
    ensures ByRun(Step(s, i).shared.started) + RunHand(Step(s, i).threads[0])
         == ByRun(s.shared.started) + RunHand(s.threads[0])
  {
    var top := Last(s.threads[i]);
    RunHandAfter(s, i);
    QuietOps(s, i);
    HandOfTop(s.threads[i]);
    HandOfCall(top.c, top.how);
    HandOfOther(Body(top.c.registers));
    ByRunAppend(s.shared.started, Started(top.c, i, top.how));
    EmptyConcat(ByRun(s.shared.started));
    EmptyConcat(ByRun(Step(s, i).shared.started));
  }

  lemma {:induction false} TakeStep(s: System, i: nat)
    requires PhaseInv(s) && CallerInv(s) && OrderInv(s) && Enabled(s, i) && Last(s.threads[i]).Loop?
    ensures Step(s, i).shared.started == s.shared.started
    ensures RunHand(s.threads[0]) == []
    ensures RunHand(Step(s, i).threads[0]) == TakenIn(StepOps(s, i))
  {
    var g := s.shared;
    RunHandAfter(s, i);
    LoopOps(s, i);
    RunnerIsFirst(s, i);
    HandOfTop(s.threads[i]);
    HandOfOther(Loop);
    ActLoop(s.kind, g, i);
    if g.vars.stack == [] {
      HandOfOther(Drained);
    } else {
      assert Last(g.vars.stack) in g.vars.stack;
      HandOfCall(Last(g.vars.stack), NextHow(g));
      TakenInOne(Takes(Last(g.vars.stack)));
    }
  }

  /** All other actions keep what is in hand. */
  lemma {:induction false} QuietRunHand(kind: Kind, g: Shared, i: nat, top: Frame)
    requires !top.Call? && !top.Loop?
    ensures var r := Act(kind, g, i, top);
      RunHand(r.1) == RunHand([top]) && r.0.started == g.started
  {
  }

  lemma {:induction false} OtherTakenIn(s: System, i: nat)
    requires PhaseInv(s) && Enabled(s, i) && !Last(s.threads[i]).Loop?
    ensures TakenIn(StepOps(s, i)) == []
  {
    match Last(s.threads[i])
    case Sort => SortOps(s, i); TakenInOne(Begins(s.shared.vars.stack));
    case Test(c) => TestOps(s, i); TakenInOne(Registers(c));
    case _ => QuietOps(s, i);
  }

  /** What has been called, and what is in hand, grows by what a step takes. */
  lemma {:induction false} TakenStep(s: System, i: nat)
    requires PhaseInv(s) && CallerInv(s) && OrderInv(s) && Enabled(s, i)
    ensures ByRun(Step(s, i).shared.started) + RunHand(Step(s, i).threads[0])
         == ByRun(s.shared.started) + RunHand(s.threads[0]) + TakenIn(StepOps(s, i))
  {
    var before := ByRun(s.shared.started) + RunHand(s.threads[0]);
    EmptyConcat(before);
    if Last(s.threads[i]).Loop? {
      TakeStep(s, i);
      EmptyConcat(ByRun(s.shared.started));
    } else if Last(s.threads[i]).Call? {
      CallStep(s, i);
    } else {
      OtherTakenIn(s, i);
      RunHandAfter(s, i);
      HandOfTop(s.threads[i]);
      QuietRunHand(s.kind, s.shared, i, Last(s.threads[i]));
    }
  }

  lemma {:induction false} TakenSchedule(s: System, schedule: seq<nat>)
    requires Inv(s) && CallerInv(s) && Possible(s, schedule)
    ensures CallerInv(After(s, schedule))
    ensures ByRun(After(s, schedule).shared.started) + RunHand(After(s, schedule).threads[0])
         == ByRun(s.shared.started) + RunHand(s.threads[0]) + TakenIn(Ops(s, schedule))
    decreases schedule
  {
    var before := ByRun(s.shared.started) + RunHand(s.threads[0]);
    if schedule == [] {
      EmptyConcat(before);
    } else {
      var next, rest := Step(s, schedule[0]), schedule[1..];
      InvStep(s, schedule[0]);
      CallerStep(s, schedule[0]);
      TakenStep(s, schedule[0]);
      TakenSchedule(next, rest);
      TakenInConcat(StepOps(s, schedule[0]), Ops(next, rest));
      ConcatAssoc(before, TakenIn(StepOps(s, schedule[0])), TakenIn(Ops(next, rest)));
    }
  }

  lemma {:induction false} NothingTakenYet(s: System)
    requires Initial(s)
    ensures CallerInv(s) && ByRun(s.shared.started) + RunHand(s.threads[0]) == []
  {
    LateInitially(s);
    HandOfTop(s.threads[0]);
    HandOfOther(Last(s.threads[0]));
  }

  /** At every point of every schedule, the run has called what it took, in that order, but for one in its hand. */
  lemma {:induction false} CallsFollowTakes(s: System, schedule: seq<nat>)
    requires Initial(s) && Fits(s) && Possible(s, schedule)
    ensures var e := After(s, schedule);
      && |e.threads| > 0
      && ByRun(e.shared.started) + RunHand(e.threads[0]) == TakenIn(Ops(s, schedule))
  {
    InvInitially(s);
    NothingTakenYet(s);
    TakenSchedule(s, schedule);
    EmptyConcat(TakenIn(Ops(s, schedule)));
  }

  /**
    Whenever the run is about to take the next callback, or to drain the
    registry, every callback it took before has been called and has returned: no
    frame of its call is left above the run's own.
   */
  lemma {:induction false} TakenHaveReturned(s: System, schedule: seq<nat>)
    requires Initial(s) && Fits(s) && Possible(s, schedule)
    requires var t := After(s, schedule).threads; |t| > 0 && t[0] != [] && Last(t[0]).Loop?
    ensures var e := After(s, schedule);
      && |e.threads[0]| == 2 && e.threads[0][0].Body?
      && ByRun(e.shared.started) == TakenIn(Ops(s, schedule))
  {
    var e := After(s, schedule);
    InvInitially(s);
    EverySchedule(s, schedule);
    CallsFollowTakes(s, schedule);
    HandOfTop(e.threads[0]);
    HandOfOther(Loop);
    EmptyConcat(ByRun(e.shared.started));
    LoopIsAlone(e);
  }

  lemma {:induction false} LoopIsAlone(e: System)
    requires LockInv(e) && RunnerInv(e) && e.threads[0] != [] && Last(e.threads[0]).Loop?
    ensures |e.threads[0]| == 2 && e.threads[0][0].Body?
  {
    var t := e.threads[0];
    assert Shape(t);
    assert Last(t) == t[|t| - 1];
    RunnerOnTop(t);
    assert Resting(t[0]);
  }

  /** After a complete schedule, the run has called exactly what it took, in that order. */
  lemma {:induction false} RunCallsWhatItTakes(s: System, schedule: seq<nat>)
    requires Initial(s) && Fits(s) && Possible(s, schedule)
    requires forall i: nat :: !Enabled(After(s, schedule), i)
    ensures ByRun(After(s, schedule).shared.started) == TakenIn(Ops(s, schedule))
  {
    EveryCompleteSchedule(s, schedule);
    CallsFollowTakes(s, schedule);
    EmptyConcat(ByRun(After(s, schedule).shared.started));
  }
}
