/**
  A single thread that registers, runs the registry and registers again: the
  state machine of the threads then starts callbacks in exactly the order of the
  closed form that the registries' own run methods are proved to have.
 */
module SingleThread {
  import opened Sequences
  import opened Callbacks
  import opened Capacity
  import opened Registry
  import opened RunTrace
  import opened RunProperties
  import opened Threads
  import opened ThreadLedger

  /** A system of one thread, whose frames are `base` with `fs` above. */
  function Alone(kind: Kind, g: Shared, base: Thread, fs: seq<Frame>): System
  {
    System(kind, g, [base + fs])
  }

  lemma {:induction false} AloneSteps(kind: Kind, g: Shared, base: Thread, low: seq<Frame>, top: Frame)
    requires Waits(top) ==> g.lock == Free
    ensures var s := Alone(kind, g, base, low + [top]); var r := Act(kind, g, 0, top);
      Enabled(s, 0) && Step(s, 0) == Alone(kind, r.0, base, low + r.1)
  {
    var t := base + (low + [top]);
    var r := Act(kind, g, 0, top);
    assert Init(t) == base + low;
    assert (base + low) + r.1 == base + (low + r.1);
  }

  lemma {:induction false} AloneStep(kind: Kind, g: Shared, base: Thread, top: Frame)
    requires Waits(top) ==> g.lock == Free
    ensures var s := Alone(kind, g, base, [top]); var r := Act(kind, g, 0, top);
      Enabled(s, 0) && Step(s, 0) == Alone(kind, r.0, base, r.1)
  {
    AloneSteps(kind, g, base, [], top);
    assert [] + [top] == [top] && [] + Act(kind, g, 0, top).1 == Act(kind, g, 0, top).1;
  }

  lemma {:induction false} AloneRegroup(kind: Kind, g: Shared, base: Thread, low: seq<Frame>, fs: seq<Frame>)
    ensures Alone(kind, g, base + low, fs) == Alone(kind, g, base, low + fs)
    ensures Alone(kind, g, base + low, []) == Alone(kind, g, base, low)
  {
    assert (base + low) + fs == base + (low + fs);
    assert (base + low) + [] == base + low;
  }

  // ----- registrations -----

  function PushedAll(v: Vars, cs: seq<Callback>): Vars
    decreases |cs|
  {
    if cs == [] then v else PushedAll(if cs[0].f == 0 then v else Push(v, cs[0]), cs[1..])
  }

  lemma {:induction false} PushedStack(v: Vars, cs: seq<Callback>)
    ensures PushedAll(v, cs).stack == v.stack + NonNull(cs)
    decreases |cs|
  {
    if cs != [] {
      PushedStack(if cs[0].f == 0 then v else Push(v, cs[0]), cs[1..]);
    }
  }

  /** Three steps queue a callback. */
  lemma {:induction false} EnterQueues(kind: Kind, g: Shared, base: Thread, low: seq<Frame>, c: Callback, e: System)
    requires g.lock == Free && !RunsAtOnce(g.vars)
    requires Leads(Alone(kind, g.(vars := Push(g.vars, c)), base, low), e)
    ensures Leads(Alone(kind, g, base, low + [Enter(c)]), e)
  {
    var g1 := g.(lock := Held(0));
    var g2 := g1.(vars := Push(g.vars, c));
    AloneSteps(kind, g2, base, low, Leave);
    assert low + [] == low;
    assert g2.(lock := Free) == g.(vars := Push(g.vars, c));
    LeadsStep(Alone(kind, g2, base, low + [Leave]), 0, e);
    AloneSteps(kind, g1, base, low, Test(c));
    LeadsStep(Alone(kind, g1, base, low + [Test(c)]), 0, e);
    AloneSteps(kind, g, base, low, Enter(c));
    LeadsStep(Alone(kind, g, base, low + [Enter(c)]), 0, e);
  }

  /** Registrations made while the queue takes them. */
  lemma {:induction false} BodyQueues(kind: Kind, g: Shared, base: Thread, todo: seq<Callback>, e: System)
    requires g.lock == Free && !RunsAtOnce(g.vars)
    requires Leads(Alone(kind, g.(vars := PushedAll(g.vars, todo)), base, []), e)
    ensures Leads(Alone(kind, g, base, [Body(todo)]), e)
    decreases |todo|
  {
    AloneStep(kind, g, base, Body(todo));
    if todo != [] {
      var c, rest := todo[0], todo[1..];
      if c.f == 0 {
        BodyQueues(kind, g, base, rest, e);
      } else {
        assert [Body(rest), Enter(c)] == [Body(rest)] + [Enter(c)];
        var g' := g.(vars := Push(g.vars, c));
        assert g'.(vars := PushedAll(g'.vars, rest)) == g.(vars := PushedAll(g.vars, todo));
        BodyQueues(kind, g', base, rest, e);
        EnterQueues(kind, g, base, [Body(rest)], c, e);
      }
    } else {
      assert g.(vars := PushedAll(g.vars, todo)) == g;
    }
    LeadsStep(Alone(kind, g, base, [Body(todo)]), 0, e);
  }

  /** The starts of registrations that run at once, nested. */
  function NestedStarts(cs: seq<Callback>): seq<Started>
    decreases cs
  {
    if cs == [] then []
    else
      (if cs[0].f == 0 then [] else [Started(cs[0], 0, AtOnce)] + NestedStarts(cs[0].registers))
      + NestedStarts(cs[1..])
  }

  lemma {:induction false} StartedConcat(a: seq<Started>, b: seq<Started>)
    ensures StartedCallbacks(a + b) == StartedCallbacks(a) + StartedCallbacks(b)
  {
  }

  lemma {:induction false} StartedOne(x: Started)
    ensures StartedCallbacks([x]) == [x.c]
  {
  }

  lemma {:induction false} NestedStartsAre(cs: seq<Callback>)
    ensures StartedCallbacks(NestedStarts(cs)) == Starts(ImmediateAll(cs))
    decreases cs
  {
    if cs != [] {
      var c, rest := cs[0], cs[1..];
      NestedStartsAre(rest);
      StartsConcat(Immediate(c), ImmediateAll(rest));
      if c.f == 0 {
        EmptyConcat(NestedStarts(rest));
        EmptyConcat(Starts(ImmediateAll(rest)));
      } else {
        var first, inner := Started(c, 0, AtOnce), NestedStarts(c.registers);
        NestedStartsAre(c.registers);
        StartsOfImmediate(c);
        StartedOne(first);
        StartedConcat([first], inner);
        StartedConcat([first] + inner, NestedStarts(rest));
      }
    }
  }

  /** Four steps enter a callback that runs at once. */
  lemma {:induction false} EnterNests(kind: Kind, g: Shared, base: Thread, low: seq<Frame>, c: Callback, e: System)
    requires g.lock == Free && RunsAtOnce(g.vars)
    requires Leads(Alone(kind, g.(started := g.started + [Started(c, 0, AtOnce)]), base, low + [Body(c.registers)]), e)
    ensures Leads(Alone(kind, g, base, low + [Enter(c)]), e)
  {
    var g1 := g.(lock := Held(0));
    assert g1.(lock := Free) == g;
    AloneSteps(kind, g, base, low, Call(c, AtOnce));
    LeadsStep(Alone(kind, g, base, low + [Call(c, AtOnce)]), 0, e);
    AloneSteps(kind, g1, base, low, Redirect(c));
    LeadsStep(Alone(kind, g1, base, low + [Redirect(c)]), 0, e);
    AloneSteps(kind, g1, base, low, Test(c));
    LeadsStep(Alone(kind, g1, base, low + [Test(c)]), 0, e);
    AloneSteps(kind, g, base, low, Enter(c));
    LeadsStep(Alone(kind, g, base, low + [Enter(c)]), 0, e);
  }

  lemma {:induction false} StartedSplit(ss: seq<Started>, c: Callback, rest: seq<Callback>)
    requires c.f != 0
    ensures ss + NestedStarts([c] + rest)
         == (ss + [Started(c, 0, AtOnce)]) + NestedStarts(c.registers) + NestedStarts(rest)
  {
    assert ([c] + rest)[1..] == rest;
  }

  /** Registrations made while nothing is queued: each is a nested block of starts. */
  lemma {:induction false} BodyNests(kind: Kind, g: Shared, base: Thread, todo: seq<Callback>, e: System)
    requires g.lock == Free && RunsAtOnce(g.vars)
    requires Leads(Alone(kind, g.(started := g.started + NestedStarts(todo)), base, []), e)
    ensures Leads(Alone(kind, g, base, [Body(todo)]), e)
    decreases todo
  {
    AloneStep(kind, g, base, Body(todo));
    if todo == [] {
      assert g.(started := g.started + NestedStarts(todo)) == g;
    } else {
      var c, rest := todo[0], todo[1..];
      assert todo == [c] + rest;
      if c.f == 0 {
        assert NestedStarts(todo) == [] + NestedStarts(rest) == NestedStarts(rest);
        BodyNests(kind, g, base, rest, e);
      } else {
        assert [Body(rest), Enter(c)] == [Body(rest)] + [Enter(c)];
        var g1 := g.(started := g.started + [Started(c, 0, AtOnce)]);
        var g2 := g1.(started := g1.started + NestedStarts(c.registers));
        StartedSplit(g.started, c, rest);
        BodyNests(kind, g2, base, rest, e);
        AloneRegroup(kind, g2, base, [Body(rest)], []);
        BodyNests(kind, g1, base + [Body(rest)], c.registers, e);
        AloneRegroup(kind, g1, base, [Body(rest)], [Body(c.registers)]);
        EnterNests(kind, g, base, [Body(rest)], c, e);
      }
    }
    LeadsStep(Alone(kind, g, base, [Body(todo)]), 0, e);
  }

  // ----- the run loop -----

  lemma {:induction false} PushedSound(v: Vars, cs: seq<Callback>)
    requires Sound(v) && !RunsAtOnce(v) && v.size != DRAINED_SIZE && |v.stack| + |cs| <= MAX_CALLBACKS
    ensures Sound(PushedAll(v, cs)) && !RunsAtOnce(PushedAll(v, cs))
    ensures PushedAll(v, cs).size != DRAINED_SIZE
    ensures v.size != 0 ==> PushedAll(v, cs).size != 0
    decreases |cs|
  {
    if cs != [] {
      if cs[0].f != 0 {
        PushSound(v, cs[0]);
      }
      PushedSound(if cs[0].f == 0 then v else Push(v, cs[0]), cs[1..]);
    }
  }

  /** What one callback of the run leaves of the shared state, when it has returned. */
  function AfterCall(g: Shared, c: Callback, how: How): Shared
  {
    var g1 := g.(started := g.started + [Started(c, 0, how)]);
    if RunsAtOnce(g.vars) then g1.(started := g1.started + NestedStarts(c.registers))
    else g1.(vars := PushedAll(g1.vars, c.registers))
  }

  lemma {:induction false} CallLeads(kind: Kind, g: Shared, base: Thread, c: Callback, how: How)
    requires g.lock == Free
    ensures Leads(Alone(kind, g, base, [Again] + [Call(c, how)]), Alone(kind, AfterCall(g, c, how), base, [Again]))
  {
    var g1 := g.(started := g.started + [Started(c, 0, how)]);
    var e := Alone(kind, AfterCall(g, c, how), base, [Again]);
    LeadsNowhere(e);
    AloneRegroup(kind, AfterCall(g, c, how), base, [Again], []);
    if RunsAtOnce(g.vars) {
      BodyNests(kind, g1, base + [Again], c.registers, e);
    } else {
      BodyQueues(kind, g1, base + [Again], c.registers, e);
    }
    AloneRegroup(kind, g1, base, [Again], [Body(c.registers)]);
    AloneSteps(kind, g, base, [Again], Call(c, how));
    LeadsStep(Alone(kind, g, base, [Again] + [Call(c, how)]), 0, e);
  }

  /** The shared state when the loop has taken its callback and released the lock. */
  function TakenFrom(g: Shared): Shared
    requires g.vars.stack != []
  {
    g.(vars := Pop(g.vars), early := if NextHow(g).Early? then |g.vars.stack| - 1 else g.early, lock := Free)
  }

  lemma {:induction false} TakeLeads(kind: Kind, g: Shared, base: Thread, e: System)
    requires g.lock == Held(0) && g.vars.stack != [] && Last(g.vars.stack).f != 0
    requires Leads(Alone(kind, TakenFrom(g), base, [Again] + [Call(Last(g.vars.stack), NextHow(g))]), e)
    ensures Leads(Alone(kind, g, base, [Loop]), e)
  {
    var c, how := Last(g.vars.stack), NextHow(g);
    var g1 := TakenFrom(g).(lock := Held(0));
    assert g1.(lock := Free) == TakenFrom(g);
    assert [Again, Call(c, how)] == [Again] + [Call(c, how)];
    AloneStep(kind, g1, base, Taken(c, how));
    LeadsStep(Alone(kind, g1, base, [Taken(c, how)]), 0, e);
    AloneStep(kind, g, base, Loop);
    LeadsStep(Alone(kind, g, base, [Loop]), 0, e);
  }

  /** One turn of the loop, from holding the lock to holding it again. */
  function TurnOf(g: Shared): Shared
    requires g.vars.stack != []
  {
    AfterCall(TakenFrom(g), Last(g.vars.stack), NextHow(g)).(lock := Held(0))
  }

  lemma {:induction false} TurnLeads(kind: Kind, g: Shared, base: Thread)
    requires g.lock == Held(0) && g.vars.stack != [] && Last(g.vars.stack).f != 0
    ensures Leads(Alone(kind, g, base, [Loop]), Alone(kind, TurnOf(g), base, [Loop]))
  {
    var c, how := Last(g.vars.stack), NextHow(g);
    var g3 := AfterCall(TakenFrom(g), c, how);
    var e := Alone(kind, TurnOf(g), base, [Loop]);
    LeadsNowhere(e);
    AloneStep(kind, g3, base, Again);
    LeadsStep(Alone(kind, g3, base, [Again]), 0, e);
    CallLeads(kind, TakenFrom(g), base, c, how);
    LeadsTransitive(Alone(kind, TakenFrom(g), base, [Again] + [Call(c, how)]), Alone(kind, g3, base, [Again]), e);
    TakeLeads(kind, g, base, e);
  }

  /** What the last turn of the loop starts. */
  lemma {:induction false} LastTurnMatches(g: Shared, c: Callback)
    requires g.vars.stack == [c] && c.f != 0 && g.vars.size != 0
    ensures TurnOf(g).vars == Pop(g.vars)
    ensures StartedCallbacks(TurnOf(g).started) == StartedCallbacks(g.started) + Starts(Drain([c]))
  {
    var first := Started(c, 0, NextHow(g));
    StartedAppend(g.started, first);
    StartedConcat(g.started + [first], NestedStarts(c.registers));
    NestedStartsAre(c.registers);
    StartsOfImmediate(c);
    DrainLast(c);
    ConcatAssoc(StartedCallbacks(g.started), [c], Starts(ImmediateAll(c.registers)));
  }

  /** What any other turn starts and queues. */
  lemma {:induction false} OtherTurnMatches(g: Shared, rest: seq<Callback>, c: Callback)
    requires g.vars.stack == rest + [c] && rest != [] && c.f != 0
    ensures TurnOf(g).vars == PushedAll(Pop(g.vars), c.registers)
    ensures TurnOf(g).vars.stack == rest + NonNull(c.registers)
    ensures StartedCallbacks(TurnOf(g).started) + Starts(Drain(rest + NonNull(c.registers)))
         == StartedCallbacks(g.started) + Starts(Drain(rest + [c]))
  {
    var next := Drain(rest + NonNull(c.registers));
    assert Init(g.vars.stack) == rest;
    StartedAppend(g.started, Started(c, 0, NextHow(g)));
    PushedStack(Pop(g.vars), c.registers);
    DrainTurn(rest, c);
    StartsOfOne(c);
    StartsConcat([Start(c), Finish(c)], next);
    ConcatAssoc(StartedCallbacks(g.started), [c], Starts(next));
  }

  /** The starts and the queue after one turn are those that the closed form says. */
  lemma {:induction false} TurnOfMatches(g: Shared)
    requires Sound(g.vars) && g.vars.stack != [] && WeightAll(g.vars.stack) < MAX_CALLBACKS
    ensures Sound(TurnOf(g).vars) && TurnOf(g).lock == Held(0)
    ensures WeightAll(TurnOf(g).vars.stack) < WeightAll(g.vars.stack)
    ensures StartedCallbacks(TurnOf(g).started) + Starts(Drain(TurnOf(g).vars.stack))
         == StartedCallbacks(g.started) + Starts(Drain(g.vars.stack))
  {
    var c, rest := Last(g.vars.stack), Init(g.vars.stack);
    assert c in g.vars.stack && g.vars.stack == rest + [c];
    WeightSplit(g.vars.stack);
    if rest == [] {
      assert g.vars.stack == [c];
      LastTurnMatches(g, c);
      assert Starts(Drain([])) == [];
    } else {
      OtherTurnMatches(g, rest, c);
      PushedSound(Pop(g.vars), c.registers);
      WeightConcat(rest, NonNull(c.registers));
      WeightBounds(c.registers);
    }
  }

  /** The whole loop: it starts what the closed form says and leaves a drained registry. */
  lemma {:induction false} LoopLeads(kind: Kind, g: Shared, base: Thread) returns (h: Shared)
    requires g.lock == Held(0) && Sound(g.vars) && WeightAll(g.vars.stack) < MAX_CALLBACKS
    ensures Leads(Alone(kind, g, base, [Loop]), Alone(kind, h, base, []))
    ensures h.vars == DRAINED && h.lock == Free
    ensures StartedCallbacks(h.started) == StartedCallbacks(g.started) + Starts(Drain(g.vars.stack))
    decreases WeightAll(g.vars.stack)
  {
    if g.vars.stack == [] {
      var g1 := g.(vars := DRAINED);
      h := g1.(lock := Free);
      LeadsNowhere(Alone(kind, h, base, []));
      AloneStep(kind, g1, base, Drained);
      LeadsStep(Alone(kind, g1, base, [Drained]), 0, Alone(kind, h, base, []));
      AloneStep(kind, g, base, Loop);
      LeadsStep(Alone(kind, g, base, [Loop]), 0, Alone(kind, h, base, []));
    } else {
      assert Last(g.vars.stack) in g.vars.stack;
      TurnOfMatches(g);
      TurnLeads(kind, g, base);
      h := LoopLeads(kind, TurnOf(g), base);
      LeadsTransitive(Alone(kind, g, base, [Loop]), Alone(kind, TurnOf(g), base, [Loop]), Alone(kind, h, base, []));
    }
  }

  // ----- the whole life of one thread -----

  /** With a single thread there is only one complete schedule. */
  lemma {:induction false} CompleteIsUnique(s: System, a: seq<nat>, b: seq<nat>)
    requires |s.threads| == 1
    requires Possible(s, a) && Possible(s, b)
    requires !Enabled(After(s, a), 0) && !Enabled(After(s, b), 0)
    ensures After(s, a) == After(s, b)
    decreases |a|
  {
    if a != [] && b != [] {
      CompleteIsUnique(Step(s, 0), a[1..], b[1..]);
    }
  }

  /** The shared state when the run has taken the lock and prepared its queue. */
  function Begun(kind: Kind, g: Shared): Shared
  {
    g.(lock := Held(0), vars := g.vars.(stack := Prepared(kind, g.vars.stack)),
       begun := true, queue := g.vars.stack, early := |g.vars.stack|)
  }

  lemma {:induction false} RunBeginsLeads(kind: Kind, g: Shared, base: Thread, e: System)
    requires g.lock == Free && Leads(Alone(kind, Begun(kind, g), base, [Loop]), e)
    ensures Leads(Alone(kind, g, base, [Run]), e)
  {
    var g1 := g.(lock := Held(0));
    AloneStep(kind, g1, base, Sort);
    LeadsStep(Alone(kind, g1, base, [Sort]), 0, e);
    AloneStep(kind, g, base, Run);
    LeadsStep(Alone(kind, g, base, [Run]), 0, e);
  }

  /** The run, from before it takes the lock to the drained registry. */
  lemma {:induction false} RunLeads(kind: Kind, g: Shared, base: Thread) returns (h: Shared)
    requires g.lock == Free && Sound(g.vars) && WeightAll(g.vars.stack) < MAX_CALLBACKS
    ensures Leads(Alone(kind, g, base, [Run]), Alone(kind, h, base, []))
    ensures h.vars == DRAINED && h.lock == Free
    ensures StartedCallbacks(h.started)
         == StartedCallbacks(g.started) + Starts(RunEvents(RunOrder(kind, g.vars.stack)))
  {
    PreparedProperties(kind, g.vars.stack);
    DrainIsRun(Prepared(kind, g.vars.stack));
    h := LoopLeads(kind, Begun(kind, g), base);
    RunBeginsLeads(kind, g, base, Alone(kind, h, base, []));
  }

  /** What the thread registers before its run is queued. */
  lemma {:induction false} LifeBegins(s: System, before: seq<Callback>, after: seq<Callback>, e: System)
    requires Initial(s) && s.threads == [[Body(after), Run, Body(before)]]
    requires Leads(Alone(s.kind, s.shared.(vars := PushedAll(FRESH, before)), [Body(after)], [Run]), e)
    ensures Leads(s, e)
  {
    var g := s.shared;
    var base: Thread := [Body(after), Run];
    AloneRegroup(s.kind, g.(vars := PushedAll(FRESH, before)), [Body(after)], [Run], []);
    assert [Body(after)] + [Run] == base;
    BodyQueues(s.kind, g, base, before, e);
    assert base + [Body(before)] == s.threads[0];
  }

  /** What it registers after its run is called at once, and then it has nothing left to do. */
  lemma {:induction false} LifeEnds(kind: Kind, h: Shared, after: seq<Callback>) returns (e: System)
    requires h.vars == DRAINED && h.lock == Free
    ensures Leads(Alone(kind, h, [Body(after)], []), e) && !Enabled(e, 0)
    ensures StartedCallbacks(e.shared.started) == StartedCallbacks(h.started) + Starts(ImmediateAll(after))
  {
    e := Alone(kind, h.(started := h.started + NestedStarts(after)), [], []);
    LeadsNowhere(e);
    BodyNests(kind, h, [], after, e);
    StartedConcat(h.started, NestedStarts(after));
    NestedStartsAre(after);
    assert [Body(after)] + [] == [Body(after)] == [] + [Body(after)];
  }

  lemma {:induction false} QueuedBefore(before: seq<Callback>)
    requires WeightAll(before) < MAX_CALLBACKS
    ensures var v := PushedAll(FRESH, before);
      Sound(v) && v.stack == NonNull(before) && WeightAll(v.stack) < MAX_CALLBACKS
  {
    WeightBounds(before);
    PushedStack(FRESH, before);
    PushedSound(FRESH, before);
    assert [] + NonNull(before) == NonNull(before);
  }

  /** The run, and what comes after it. */
  lemma {:induction false} LifeRuns(kind: Kind, g: Shared, after: seq<Callback>) returns (e: System)
    requires g.lock == Free && Sound(g.vars) && WeightAll(g.vars.stack) < MAX_CALLBACKS && g.started == []
    ensures Leads(Alone(kind, g, [Body(after)], [Run]), e) && !Enabled(e, 0)
    ensures StartedCallbacks(e.shared.started)
         == Starts(RunEvents(RunOrder(kind, g.vars.stack))) + Starts(ImmediateAll(after))
  {
    var h := RunLeads(kind, g, [Body(after)]);
    e := LifeEnds(kind, h, after);
    LeadsTransitive(Alone(kind, g, [Body(after)], [Run]), Alone(kind, h, [Body(after)], []), e);
    assert StartedCallbacks(g.started) == [];
    EmptyConcat(Starts(RunEvents(RunOrder(kind, g.vars.stack))));
  }

  /** Registering, running and registering again leads to the end that the closed form describes. */
  lemma {:induction false} LifeLeads(s: System, before: seq<Callback>, after: seq<Callback>) returns (e: System)
    requires Initial(s) && s.threads == [[Body(after), Run, Body(before)]]
    requires WeightAll(before) < MAX_CALLBACKS
    ensures Leads(s, e) && !Enabled(e, 0)
    ensures StartedCallbacks(e.shared.started)
         == Starts(RunEvents(RunOrder(s.kind, NonNull(before)))) + Starts(ImmediateAll(after))
  {
    QueuedBefore(before);
    e := LifeRuns(s.kind, s.shared.(vars := PushedAll(FRESH, before)), after);
    LifeBegins(s, before, after, e);
  }

  /**
    Every complete schedule of a single thread starts callbacks in the order of
    the closed form: what was registered before the run in the run's order, each
    with what it registers; then what is registered afterwards, at once.
   */
  lemma {:induction false} OneThreadMatchesClosedForm(s: System, before: seq<Callback>, after: seq<Callback>,
                                                      schedule: seq<nat>)
    requires Initial(s) && s.threads == [[Body(after), Run, Body(before)]]
    requires WeightAll(before) < MAX_CALLBACKS
    requires Possible(s, schedule) && !Enabled(After(s, schedule), 0)
    ensures StartedCallbacks(After(s, schedule).shared.started)
         == Starts(RunEvents(RunOrder(s.kind, NonNull(before)))) + Starts(ImmediateAll(after))
  {
    var e := LifeLeads(s, before, after);
    var other :| Possible(s, other) && After(s, other) == e;
    CompleteIsUnique(s, schedule, other);
  }
}
