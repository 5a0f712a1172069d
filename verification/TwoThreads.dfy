/**
  A registration that the run loop does not take although the last queued
  callback registers nothing: it comes from a second thread, while that callback
  is out of the queue.
 */
module TwoThreads {
  import opened Sequences
  import opened Callbacks
  import opened PrioritySort
  import opened Registry
  import opened Threads
  import opened ThreadOrder
  import opened Schedules
  import opened LateRegistrations

  function Two(g: Shared, a: Thread, b: Thread): System
  {
    System(AtInitKind, g, [a, b])
  }

  /** Some schedule leads from `s` to `e`, and on it a registration of the run finds nothing queued. */
  ghost predicate LeadsPast(s: System, e: System)
  {
    exists schedule :: Possible(s, schedule) && After(s, schedule) == e && SomeFindsNothing(s, schedule)
  }

  lemma {:induction false} LeadsPastHere(s: System, i: nat, e: System)
    requires Enabled(s, i) && FindsNothing(s, i) && Leads(Step(s, i), e)
    ensures LeadsPast(s, e)
  {
    var rest :| Possible(Step(s, i), rest) && After(Step(s, i), rest) == e;
    var schedule := [i] + rest;
    ConcatTail([i], rest);
    assert Possible(s, schedule) && After(s, schedule) == e && SomeFindsNothing(s, schedule);
  }

  lemma {:induction false} LeadsPastStep(s: System, i: nat, e: System)
    requires Enabled(s, i) && LeadsPast(Step(s, i), e)
    ensures LeadsPast(s, e)
  {
    var rest :| Possible(Step(s, i), rest) && After(Step(s, i), rest) == e && SomeFindsNothing(Step(s, i), rest);
    var schedule := [i] + rest;
    ConcatTail([i], rest);
    assert Possible(s, schedule) && After(s, schedule) == e && SomeFindsNothing(s, schedule);
  }

  /** What thread 0 does with `top` above `base`, while thread 1 rests. */
  lemma {:induction false} FirstSteps(g: Shared, base: Thread, top: Frame, b: Thread)
    requires Waits(top) ==> g.lock == Free
    ensures Enabled(Two(g, base + [top], b), 0)
    ensures var r := Act(AtInitKind, g, 0, top); Step(Two(g, base + [top], b), 0) == Two(r.0, base + r.1, b)
  {
    Appended(base, top);
  }

  lemma {:induction false} SecondSteps(g: Shared, a: Thread, base: Thread, top: Frame)
    requires Waits(top) ==> g.lock == Free
    ensures Enabled(Two(g, a, base + [top]), 1)
    ensures var r := Act(AtInitKind, g, 1, top); Step(Two(g, a, base + [top]), 1) == Two(r.0, a, base + r.1)
  {
    Appended(base, top);
  }

  // ----- the schedule, from its end -----

  /** The registry while `c`, the only callback queued before the run, is out of the queue. */
  const EMPTIED := Vars([], 32)

  function During(c: Callback): Shared
  {
    Shared(EMPTIED, Free, [], true, [c], 0)
  }

  function Hand(c: Callback): Thread
  {
    [Body([]), Again, Call(c, Early)]
  }

  /** The second thread has called `x` itself, and `c` has not even started. */
  function Bypassed(c: Callback, x: Callback): System
  {
    Two(During(c).(started := [Started(x, 1, AtOnce)]), Hand(c), [Body([]), Body(x.registers)])
  }

  lemma {:induction false} SecondCalls(c: Callback, x: Callback)
    ensures Leads(Two(During(c).(lock := Held(1)), Hand(c), [Body([])] + [Redirect(x)]), Bypassed(c, x))
  {
    var g := During(c);
    LeadsNowhere(Bypassed(c, x));
    assert [Body([])] + [Body(x.registers)] == [Body([]), Body(x.registers)];
    assert [] + [Started(x, 1, AtOnce)] == [Started(x, 1, AtOnce)];
    SecondSteps(g, Hand(c), [Body([])], Call(x, AtOnce));
    LeadsStep(Two(g, Hand(c), [Body([])] + [Call(x, AtOnce)]), 1, Bypassed(c, x));
    SecondSteps(g.(lock := Held(1)), Hand(c), [Body([])], Redirect(x));
    assert g.(lock := Held(1)).(lock := Free) == g;
    LeadsStep(Two(g.(lock := Held(1)), Hand(c), [Body([])] + [Redirect(x)]), 1, Bypassed(c, x));
  }

  lemma {:induction false} SecondRegisters(c: Callback, x: Callback)
    requires x.f != 0
    ensures LeadsPast(Two(During(c), Hand(c), [Body([x])]), Bypassed(c, x))
  {
    var g, e := During(c), Bypassed(c, x);
    var s := Two(g.(lock := Held(1)), Hand(c), [Body([])] + [Test(x)]);
    SecondCalls(c, x);
    SecondSteps(g.(lock := Held(1)), Hand(c), [Body([])], Test(x));
    Appended([Body([])], Test(x));
    LeadsPastHere(s, 1, e);
    SecondSteps(g, Hand(c), [Body([])], Enter(x));
    LeadsPastStep(Two(g, Hand(c), [Body([])] + [Enter(x)]), 1, e);
    SecondSteps(g, Hand(c), [], Body([x]));
    EmptyConcat([Body([x])]);
    TailOne(x);
    assert [] + [Body([]), Enter(x)] == [Body([])] + [Enter(x)];
    LeadsPastStep(Two(g, Hand(c), [Body([x])]), 1, e);
  }

  // ----- the run takes the callback -----

  lemma {:induction false} SortedOne(c: Callback)
    ensures Sorted([c]) == [c]
  {
    TailOne(c);
    assert StableDescending([c]) == [c];
    ReverseOne(c);
  }

  lemma {:induction false} RunTakes(c: Callback, b: Thread, e: System)
    requires c.f != 0 && LeadsPast(Two(During(c), Hand(c), b), e)
    ensures LeadsPast(Two(During(c).(lock := Held(0), early := 1, vars := Vars([c], 32)), [Body([])] + [Loop], b), e)
  {
    var g := During(c).(lock := Held(0));
    FirstSteps(g, [Body([])], Taken(c, Early), b);
    assert g.(lock := Free) == During(c);
    assert [Body([])] + [Again, Call(c, Early)] == Hand(c);
    LeadsPastStep(Two(g, [Body([])] + [Taken(c, Early)], b), 0, e);
    var h := g.(early := 1, vars := Vars([c], 32));
    FirstSteps(h, [Body([])], Loop, b);
    assert Pop(h.vars) == EMPTIED;
    LeadsPastStep(Two(h, [Body([])] + [Loop], b), 0, e);
  }

  /** The first thread has registered `c`, and is about to run the registry. */
  function Filled(c: Callback): Shared
  {
    Shared(Vars([c], 32), Free, [], false, [], 0)
  }

  lemma {:induction false} RunBegins(c: Callback, b: Thread, e: System)
    requires c.f != 0 && LeadsPast(Two(During(c), Hand(c), b), e)
    ensures LeadsPast(Two(Filled(c), [Body([])] + [Run], b), e)
  {
    RunTakes(c, b, e);
    SortedOne(c);
    var g := Filled(c).(lock := Held(0));
    FirstSteps(g, [Body([])], Sort, b);
    LeadsPastStep(Two(g, [Body([])] + [Sort], b), 0, e);
    FirstSteps(Filled(c), [Body([])], Run, b);
    LeadsPastStep(Two(Filled(c), [Body([])] + [Run], b), 0, e);
  }

  // ----- the first thread registers the callback -----

  lemma {:induction false} FirstLeaves(c: Callback, low: Thread, b: Thread, e: System)
    requires LeadsPast(Two(Filled(c), low, b), e)
    ensures LeadsPast(Two(Filled(c).(lock := Held(0)), low + [Leave], b), e)
  {
    var g := Filled(c).(lock := Held(0));
    EmptyConcat(low);
    FirstSteps(g, low, Leave, b);
    LeadsPastStep(Two(g, low + [Leave], b), 0, e);
  }

  lemma {:induction false} FirstQueues(c: Callback, low: Thread, b: Thread, e: System)
    requires LeadsPast(Two(Filled(c), low, b), e)
    ensures LeadsPast(Two(Filled(c).(vars := FRESH, lock := Held(0)), low + [Test(c)], b), e)
  {
    var h := Filled(c).(vars := FRESH, lock := Held(0));
    FirstLeaves(c, low, b, e);
    EmptyConcat([c]);
    FirstSteps(h, low, Test(c), b);
    LeadsPastStep(Two(h, low + [Test(c)], b), 0, e);
  }

  lemma {:induction false} FirstRegisters(c: Callback, low: Thread, b: Thread, e: System)
    requires c.f != 0 && LeadsPast(Two(Filled(c), low, b), e)
    ensures LeadsPast(Two(Filled(c).(vars := FRESH), low + [Body([c])], b), e)
  {
    var h := Filled(c).(vars := FRESH);
    EmptyConcat(low);
    FirstSteps(Filled(c), low, Body([]), b);
    LeadsPastStep(Two(Filled(c), low + [Body([])], b), 0, e);
    FirstQueues(c, low + [Body([])], b, e);
    FirstSteps(h, low + [Body([])], Enter(c), b);
    LeadsPastStep(Two(h, (low + [Body([])]) + [Enter(c)], b), 0, e);
    TailOne(c);
    ConcatAssoc(low, [Body([])], [Enter(c)]);
    assert [Body([])] + [Enter(c)] == [Body([]), Enter(c)];
    FirstSteps(h, low, Body([c]), b);
    LeadsPastStep(Two(h, low + [Body([c])], b), 0, e);
  }

  /** The first thread registers `c` and runs the registry; the second registers `x`. */
  function TwoRegister(c: Callback, x: Callback): System
  {
    Two(Shared(FRESH, Free, [], false, [], 0), [Body([]), Run, Body([c])], [Body([x])])
  }

  lemma {:induction false} TwoInitially(c: Callback, x: Callback)
    ensures Initial(TwoRegister(c, x))
  {
  }

  lemma {:induction false} TwoLeadPast(c: Callback, x: Callback)
    requires c.f != 0 && x.f != 0
    ensures LeadsPast(TwoRegister(c, x), Bypassed(c, x))
  {
    SecondRegisters(c, x);
    RunBegins(c, [Body([x])], Bypassed(c, x));
    assert [Body([])] + [Run] == [Body([]), Run];
    FirstRegisters(c, [Body([]), Run], [Body([x])], Bypassed(c, x));
    assert [Body([]), Run] + [Body([c])] == [Body([]), Run, Body([c])];
  }

  /**
    `schedule` runs `s` to its end, `started` being what starts first, and the run
    loop has not taken all that was registered during the run.
   */
  ghost predicate EndsWithout(s: System, schedule: seq<nat>, started: seq<Started>)
  {
    && Possible(s, schedule)
    && (forall i: nat :: !Enabled(After(s, schedule), i))
    && started <= After(s, schedule).shared.started
    && multiset(StartsOf(Late, After(s, schedule).shared.started)) != RegisteredInRun(s, schedule)
  }

  /** What has found nothing queued is not taken later either. */
  lemma {:induction false} LeadsPastToEnd(s: System, e: System)
    requires Initial(s) && Fits(s) && LeadsPast(s, e)
    ensures exists schedule :: EndsWithout(s, schedule, e.shared.started)
  {
    var a :| Possible(s, a) && After(s, a) == e && SomeFindsNothing(s, a);
    InvInitially(s);
    EverySchedule(s, a);
    var b := Completes(e);
    AfterConcat(s, a, b);
    FindsNothingEarlier(s, a, b);
    StartedGrows(e, b);
    LoopTakesLateRegistrationsIff(s, a + b);
    assert EndsWithout(s, a + b, e.shared.started);
  }

  /**
    One callback is queued before the run and registers nothing, so on its own
    the run loop would take everything. A second thread registers another one
    while the first is out of the queue. It calls it itself, before the queued
    callback has even started, and when all is done the run loop has not taken
    all that was registered during the run.
   */
  lemma {:induction false} SecondThreadBypassesLoop(c: Callback, x: Callback)
    requires c.f != 0 && c.registers == [] && x.f != 0
    requires Fits(TwoRegister(c, x))
    ensures Initial(TwoRegister(c, x))
    ensures exists schedule :: EndsWithout(TwoRegister(c, x), schedule, [Started(x, 1, AtOnce)])
  {
    TwoInitially(c, x);
    TwoLeadPast(c, x);
    LeadsPastToEnd(TwoRegister(c, x), Bypassed(c, x));
  }
}
