/**
  Registrations that any thread makes while a registry is being run. The run
  loop is meant to take them all; here is exactly when it does.
 */
module LateRegistrations {
  import opened Sequences
  import opened Callbacks
  import opened Capacity
  import opened Registry
  import opened Threads
  import opened ThreadPhases
  import opened ThreadOrder
  import opened Schedules

  /** Thread `i` is about to look at the queue of a registry whose run has begun and has not drained it. */
  predicate RegistersInRun(s: System, i: nat)
    requires Enabled(s, i)
  {
    Last(s.threads[i]).Test? && s.shared.begun && s.shared.vars.size != DRAINED_SIZE
  }

  /** It finds nothing queued: the last queued callback is out, and the run has not come back to drain the registry. */
  predicate FindsNothing(s: System, i: nat)
    requires Enabled(s, i)
  {
    RegistersInRun(s, i) && s.shared.vars.stack == []
  }

  /** What is registered during the run. */
  function RegisteredInRun(s: System, schedule: seq<nat>): multiset<Callback>
    requires Possible(s, schedule)
    decreases schedule
  {
    if schedule == [] then multiset{}
    else
      (if RegistersInRun(s, schedule[0]) then multiset{Last(s.threads[schedule[0]]).c} else multiset{})
      + RegisteredInRun(Step(s, schedule[0]), schedule[1..])
  }

  predicate SomeFindsNothing(s: System, schedule: seq<nat>)
    requires Possible(s, schedule)
    decreases schedule
  {
    && schedule != []
    && (FindsNothing(s, schedule[0]) || SomeFindsNothing(Step(s, schedule[0]), schedule[1..]))
  }

  /** The registrations of the run that find nothing queued. */
  function Missed(s: System, schedule: seq<nat>): multiset<Callback>
    requires Possible(s, schedule)
    decreases schedule
  {
    if schedule == [] then multiset{}
    else
      (if FindsNothing(s, schedule[0]) then multiset{Last(s.threads[schedule[0]]).c} else multiset{})
      + Missed(Step(s, schedule[0]), schedule[1..])
  }

  lemma {:induction false} MissedIff(s: System, schedule: seq<nat>)
    requires Possible(s, schedule)
    ensures Missed(s, schedule) == multiset{} <==> !SomeFindsNothing(s, schedule)
    decreases schedule
  {
    if schedule != [] {
      var c := if FindsNothing(s, schedule[0]) then multiset{Last(s.threads[schedule[0]]).c} else multiset{};
      MissedIff(Step(s, schedule[0]), schedule[1..]);
      assert |c + Missed(Step(s, schedule[0]), schedule[1..])|
          == |c| + |Missed(Step(s, schedule[0]), schedule[1..])|;
    }
  }

  lemma {:induction false} FindsNothingEarlier(s: System, a: seq<nat>, b: seq<nat>)
    requires Possible(s, a) && Possible(After(s, a), b) && SomeFindsNothing(s, a)
    ensures Possible(s, a + b) && SomeFindsNothing(s, a + b)
    decreases a
  {
    AfterConcat(s, a, b);
    ConcatTail(a, b);
    if !FindsNothing(s, a[0]) {
      FindsNothingEarlier(Step(s, a[0]), a[1..], b);
    }
  }

  // ----- what has become of them -----

  /** Only the run's thread holds and calls what the run has taken. */
  ghost predicate CallerInv(s: System)
  {
    && |s.threads| > 0
    && (forall k :: 0 < k < |s.threads| ==> InHand(Late, s.threads[k]) == [])
    && (!s.shared.begun ==> InHand(Late, s.threads[0]) == [])
    && (forall x :: x in s.shared.started && x.how != AtOnce ==> x.caller == 0)
  }

  /** What was registered during the run and is queued, in the hand of the run, or started by it. */
  function LatePart(g: Shared, hand: seq<Callback>): multiset<Callback>
  {
    if !g.begun || g.early > |g.vars.stack| then multiset{}
    else multiset(g.vars.stack[g.early..]) + multiset(hand) + multiset(StartsOf(Late, g.started))
  }

  function LateLedger(s: System): multiset<Callback>
    requires |s.threads| > 0
  {
    LatePart(s.shared, InHand(Late, s.threads[0]))
  }

  /** What a step adds to it: a registration of the run that finds something queued. */
  function Arrived(s: System, i: nat): multiset<Callback>
    requires Enabled(s, i)
  {
    if RegistersInRun(s, i) && !FindsNothing(s, i) then multiset{Last(s.threads[i]).c} else multiset{}
  }

  lemma {:induction false} HandsAfter(s: System, i: nat)
    requires PhaseInv(s) && CallerInv(s) && OrderInv(s) && Enabled(s, i)
    ensures forall k :: 0 < k < |s.threads| ==> InHand(Late, Step(s, i).threads[k]) == []
    ensures InHand(Late, Step(s, i).threads[0])
         == if i == 0 then InHand(Late, Act(s.kind, s.shared, i, Last(s.threads[i])).1) else InHand(Late, s.threads[0])
  {
    HandAfter(Late, s, i);
    RunnerIsFirst(s, i);
    if i != 0 {
      assert InHand(Late, s.threads[i]) == [];
    }
  }

  lemma {:induction false} CallerStep(s: System, i: nat)
    requires PhaseInv(s) && CallerInv(s) && OrderInv(s) && Enabled(s, i)
    ensures CallerInv(Step(s, i))
  {
    var top := Last(s.threads[i]);
    HandsAfter(s, i);
    if top.Call? {
      assert s.shared.begun;
      assert i != 0 ==> InHand(Late, s.threads[i]) == [] == InHand(Early, s.threads[i]);
    } else if !OfRunner(top) {
      QuietHand(s.kind, s.shared, i, top);
      assert InHand(Late, s.threads[i]) == InHand(Late, [top]);
    }
  }

  lemma {:induction false} QuietHand(kind: Kind, g: Shared, i: nat, top: Frame)
    requires !OfRunner(top) && !top.Call?
    ensures var r := Act(kind, g, i, top);
      InHand(Late, r.1) == [] && r.0.started == g.started && r.0.begun == g.begun
  {
  }

  // ----- one action's part -----

  lemma {:induction false} AddToFirst<T>(a: multiset<T>, x: multiset<T>, b: multiset<T>, c: multiset<T>)
    ensures (a + x) + b + c == a + b + c + x
    ensures (a + x) + b + c == a + (b + x) + c
    ensures a + (b + x) + c == a + b + (c + x)
  {
  }

  lemma {:induction false} PushPart(g: Shared, c: Callback, hand: seq<Callback>)
    requires g.begun && g.early <= |g.vars.stack|
    ensures LatePart(g.(vars := Push(g.vars, c)), hand) == LatePart(g, hand) + multiset{c}
  {
    DropAppended(g.vars.stack, c, g.early);
    AddToFirst(multiset(g.vars.stack[g.early..]), multiset{c}, multiset(hand), multiset(StartsOf(Late, g.started)));
  }

  lemma {:induction false} TakeLatePart(g: Shared)
    requires g.begun && g.early < |g.vars.stack|
    ensures LatePart(g.(vars := Pop(g.vars)), [Last(g.vars.stack)]) == LatePart(g, [])
  {
    var stack, c := g.vars.stack, Last(g.vars.stack);
    InitLast(stack);
    DropAppended(Init(stack), c, g.early);
    AddToFirst(multiset(Init(stack)[g.early..]), multiset{c}, multiset{}, multiset(StartsOf(Late, g.started)));
  }

  lemma {:induction false} TakeEarlyPart(g: Shared)
    requires g.begun && g.early == |g.vars.stack| > 0
    ensures LatePart(g.(vars := Pop(g.vars), early := |g.vars.stack| - 1), []) == LatePart(g, [])
  {
    assert g.vars.stack[g.early..] == [] == Init(g.vars.stack)[g.early - 1..];
  }

  lemma {:induction false} EmptyPart(g: Shared)
    requires g.begun && g.vars.stack == [] && g.early == 0
    ensures LatePart(g, []) == multiset(StartsOf(Late, g.started))
  {
    assert g.vars.stack[g.early..] == [];
  }

  lemma {:induction false} DrainPart(g: Shared)
    requires g.begun && g.early <= |g.vars.stack| && g.vars.stack == []
    ensures LatePart(g.(vars := DRAINED), []) == LatePart(g, [])
  {
    EmptyPart(g);
    EmptyPart(g.(vars := DRAINED));
  }

  /** The run takes a callback into its hand. */
  lemma {:induction false} LoopPart(kind: Kind, g: Shared)
    requires g.begun && g.early <= |g.vars.stack|
    requires g.vars.stack != [] && Last(g.vars.stack).f != 0
    ensures var r := Act(kind, g, 0, Loop); LatePart(r.0, InHand(Late, r.1)) == LatePart(g, [])
  {
    var c := Last(g.vars.stack);
    HandOfTaken(c, NextHow(g));
    if NextHow(g).Late? {
      assert Act(kind, g, 0, Loop) == (g.(vars := Pop(g.vars)), [Taken(c, Late)]);
      TakeLatePart(g);
    } else {
      var h := g.(vars := Pop(g.vars), early := |g.vars.stack| - 1);
      assert Act(kind, g, 0, Loop) == (h, [Taken(c, Early)]);
      TakeEarlyPart(g);
    }
  }

  lemma {:induction false} HandOfTaken(c: Callback, how: How)
    ensures InHand(Late, [Taken(c, how)]) == if how == Late then [c] else []
  {
  }

  lemma {:induction false} StartPart(g: Shared, x: Started, hand: seq<Callback>)
    requires hand == [] || x.how != Late
    ensures LatePart(g.(started := g.started + [x]), hand)
         == LatePart(g, if x.how == Late then [x.c] else hand)
  {
    StartsAppend(Late, g.started, x);
    if g.early <= |g.vars.stack| && x.how == Late {
      AddToFirst(multiset(g.vars.stack[g.early..]), multiset{x.c}, multiset{}, multiset(StartsOf(Late, g.started)));
    }
  }

  // ----- one step -----

  lemma {:induction false} StartKeepsLate(s: System, i: nat)
    requires PhaseInv(s) && CallerInv(s) && OrderInv(s) && Enabled(s, i) && Last(s.threads[i]).Call?
    ensures LateLedger(Step(s, i)) == LateLedger(s)
  {
    var top := Last(s.threads[i]);
    HandsAfter(s, i);
    StartPart(s.shared, Started(top.c, i, top.how), InHand(Late, Step(s, i).threads[0]));
    assert InHand(Late, s.threads[i]) == if top.how == Late then [top.c] else [];
  }

  lemma {:induction false} PushKeepsLate(s: System, i: nat)
    requires PhaseInv(s) && CallerInv(s) && OrderInv(s) && Enabled(s, i) && Last(s.threads[i]).Test?
    ensures LateLedger(Step(s, i)) == LateLedger(s) + Arrived(s, i)
  {
    PushFacts(s, i);
    if s.shared.begun && s.shared.vars.stack != [] {
      PushPart(s.shared, Last(s.threads[i]).c, InHand(Late, s.threads[0]));
    }
  }

  lemma {:induction false} PushFacts(s: System, i: nat)
    requires PhaseInv(s) && CallerInv(s) && OrderInv(s) && Enabled(s, i) && Last(s.threads[i]).Test?
    ensures InHand(Late, Step(s, i).threads[0]) == InHand(Late, s.threads[0])
    ensures Step(s, i).shared.begun == s.shared.begun
    ensures var g, c := s.shared, Last(s.threads[i]).c;
      if g.begun && g.vars.stack != [] then
        && g.early <= |g.vars.stack|
        && Step(s, i).shared == g.(vars := Push(g.vars, c)) && Arrived(s, i) == multiset{c}
      else
        (g.begun ==> Step(s, i).shared == g) && Arrived(s, i) == multiset{}
  {
    HandsAfter(s, i);
    TestIsAdequate(s, i);
  }

  lemma {:induction false} LoopKeepsLate(s: System, i: nat)
    requires PhaseInv(s) && CallerInv(s) && OrderInv(s) && Enabled(s, i) && Last(s.threads[i]).Loop?
    ensures LateLedger(Step(s, i)) == LateLedger(s)
  {
    var g := s.shared;
    LoopFacts(s, i);
    if g.vars.stack == [] {
      DrainPart(g);
    } else {
      LoopPart(s.kind, g);
    }
  }

  lemma {:induction false} LoopFacts(s: System, i: nat)
    requires PhaseInv(s) && CallerInv(s) && OrderInv(s) && Enabled(s, i) && Last(s.threads[i]).Loop?
    ensures i == 0 && s.shared.begun && InHand(Late, s.threads[0]) == []
    ensures s.shared.vars.stack != [] ==> Last(s.shared.vars.stack).f != 0
    ensures InHand(Late, Step(s, 0).threads[0]) == InHand(Late, Act(s.kind, s.shared, 0, Loop).1)
    ensures Step(s, 0).shared == Act(s.kind, s.shared, 0, Loop).0
  {
    HandsAfter(s, i);
    RunnerIsFirst(s, i);
    RunMoves(s);
    if s.shared.vars.stack != [] {
      assert Last(s.shared.vars.stack) in s.shared.vars.stack;
    }
  }

  lemma {:induction false} SortKeepsLate(s: System, i: nat)
    requires PhaseInv(s) && CallerInv(s) && OrderInv(s) && Enabled(s, i) && Last(s.threads[i]).Sort?
    ensures LateLedger(Step(s, i)) == LateLedger(s)
  {
    HandsAfter(s, i);
    RunnerIsFirst(s, i);
    RunMoves(s);
    PreparedProperties(s.kind, s.shared.vars.stack);
  }

  lemma {:induction false} QuietKeepsLate(s: System, i: nat)
    requires PhaseInv(s) && CallerInv(s) && OrderInv(s) && Enabled(s, i)
    requires var f := Last(s.threads[i]); !f.Call? && !f.Loop? && !f.Sort? && !f.Test?
    ensures LateLedger(Step(s, i)) == LateLedger(s)
  {
    HandsAfter(s, i);
    QuietAct(Late, s.kind, s.shared, i, Last(s.threads[i]));
    assert InHand(Late, s.threads[i]) == InHand(Late, [Last(s.threads[i])]);
  }

  /** Only a registration of the run that finds something queued adds to the late part, and nothing is lost. */
  lemma {:induction false} LateStep(s: System, i: nat)
    requires PhaseInv(s) && CallerInv(s) && OrderInv(s) && Enabled(s, i)
    ensures LateLedger(Step(s, i)) == LateLedger(s) + Arrived(s, i)
  {
    match Last(s.threads[i])
    case Call(_, _) => StartKeepsLate(s, i);
    case Test(_) => PushKeepsLate(s, i);
    case Loop => LoopKeepsLate(s, i);
    case Sort => SortKeepsLate(s, i);
    case _ => QuietKeepsLate(s, i);
  }

  // ----- whole schedules -----

  lemma {:induction false} BalanceLate<T>(last: multiset<T>, m: multiset<T>, missed: multiset<T>, first: multiset<T>,
                                          arrived: multiset<T>, r: multiset<T>, rest: multiset<T>)
    requires last + missed == (first + arrived) + rest
    requires arrived + m == r
    ensures last + (m + missed) == first + (r + rest)
  {
    calc {
      last + (m + missed);
      (last + missed) + m;
      ((first + arrived) + rest) + m;
      first + ((arrived + m) + rest);
    }
  }

  /**
    After every schedule, what was registered during the run is queued, in the
    hand of the run, started by the run, or found nothing queued.
   */
  lemma {:induction false} EveryLateRegistration(s: System, schedule: seq<nat>)
    requires Inv(s) && CallerInv(s) && Possible(s, schedule)
    ensures CallerInv(After(s, schedule))
    ensures LateLedger(After(s, schedule)) + Missed(s, schedule) == LateLedger(s) + RegisteredInRun(s, schedule)
    decreases schedule
  {
    if schedule != [] {
      var i, rest := schedule[0], schedule[1..];
      var next := Step(s, i);
      var c := multiset{};
      InvStep(s, i);
      CallerStep(s, i);
      LateStep(s, i);
      EveryLateRegistration(next, rest);
      BalanceLate(LateLedger(After(next, rest)), if FindsNothing(s, i) then multiset{Last(s.threads[i]).c} else c,
                  Missed(next, rest), LateLedger(s), Arrived(s, i),
                  if RegistersInRun(s, i) then multiset{Last(s.threads[i]).c} else c, RegisteredInRun(next, rest));
    }
  }

  lemma {:induction false} LateInitially(s: System)
    requires Initial(s)
    ensures CallerInv(s) && LateLedger(s) == multiset{}
  {
  }

  /**
    Over every complete schedule, the run loop takes all that is registered
    during the run if and only if no registration comes while the last queued
    callback is out. Whatever the run takes is called by the run's thread.
   */
  lemma {:induction false} LoopTakesLateRegistrationsIff(s: System, schedule: seq<nat>)
    requires Initial(s) && Fits(s) && Possible(s, schedule)
    requires forall i: nat :: !Enabled(After(s, schedule), i)
    ensures var started := After(s, schedule).shared.started;
      && (multiset(StartsOf(Late, started)) == RegisteredInRun(s, schedule) <==> !SomeFindsNothing(s, schedule))
      && multiset(StartsOf(Late, started)) + Missed(s, schedule) == RegisteredInRun(s, schedule)
      && forall x :: x in started && x.how != AtOnce ==> x.caller == 0
  {
    var e := After(s, schedule);
    InvInitially(s);
    LateInitially(s);
    EverySchedule(s, schedule);
    EveryLateRegistration(s, schedule);
    EveryCompleteSchedule(s, schedule);
    MissedIff(s, schedule);
    LateAtTheEnd(e);
    Cancel(multiset(StartsOf(Late, e.shared.started)), Missed(s, schedule), RegisteredInRun(s, schedule));
  }

  lemma {:induction false} LateAtTheEnd(e: System)
    requires Inv(e) && CallerInv(e) && Idle(e)
    ensures LateLedger(e) == multiset(StartsOf(Late, e.shared.started))
  {
    AtTheEnd(e);
    assert e.threads[0] == [];
    EmptyPart(e.shared);
  }

  lemma {:induction false} Cancel<T>(a: multiset<T>, m: multiset<T>, all: multiset<T>)
    requires a + m == all
    ensures a == all <==> m == multiset{}
  {
    assert |a + m| == |a| + |m|;
  }
}
