/**
  The phase of a registry is not stored: registrations read it off `n` and
  `size`. Here is what these mean at every point of every schedule.
 */
module ThreadPhases {
  import opened Sequences
  import opened Capacity
  import opened Registry
  import opened Threads

  predicate NoRunner(t: Thread)
  {
    forall j :: 0 <= j < |t| ==> !OfRunner(t[j])
  }

  /** The first thread has not finished its run: the run's frame is its second. */
  predicate RunPending(t: Thread)
  {
    && |t| >= 2
    && OfRunner(t[1]) && !OfRunner(t[0])
    && forall j :: 2 <= j < |t| ==> !OfRunner(t[j])
  }

  /** Only the first thread runs the registry, and only once. */
  predicate RunnerInv(s: System)
  {
    && |s.threads| > 0
    && (RunPending(s.threads[0]) || NoRunner(s.threads[0]))
    && forall i :: 0 < i < |s.threads| ==> NoRunner(s.threads[i])
  }

  lemma {:induction false} RunnerIsFirst(s: System, i: nat)
    requires RunnerInv(s) && Enabled(s, i)
    ensures OfRunner(Last(s.threads[i])) ==> i == 0
  {
    assert Last(s.threads[i]) == s.threads[i][|s.threads[i]| - 1];
  }

  lemma {:induction false} RunnerStep(s: System, i: nat)
    requires LockInv(s) && RunnerInv(s) && Enabled(s, i)
    ensures RunnerInv(Step(s, i))
  {
    var t := s.threads[i];
    var t' := Step(s, i).threads[i];
    assert Shape(t);
    assert forall j :: 0 <= j < |t| - 1 ==> t'[j] == t[j];
  }

  /** What the fields hold, by how far the run has come. */
  predicate PhaseOf(g: Shared, t: Thread)
  {
    if RunPending(t) then
      match t[1]
      case Run => !g.begun
      case Sort => !g.begun
      case Loop => g.begun && g.vars.size != DRAINED_SIZE
      case Taken(_, _) => g.begun && g.vars.size != 0 && g.vars.size != DRAINED_SIZE
      case Again => g.begun && g.vars.size != 0 && g.vars.size != DRAINED_SIZE
      case Drained => g.begun && g.vars == DRAINED
      case _ => false
    else g.begun && g.vars == DRAINED
  }

  /** Before the run nothing is called, and the block has no size exactly while nothing is queued. */
  predicate BeforeRun(s: System)
  {
    && s.shared.started == []
    && (s.shared.vars.size == 0 <==> s.shared.vars.stack == [])
    && forall i :: 0 <= i < |s.threads| && s.threads[i] != []
         ==> !Last(s.threads[i]).Call? && !Last(s.threads[i]).Redirect?
  }

  /** NULL functions are dropped before they reach the queue or a call. */
  predicate Live(f: Frame)
  {
    match f
    case Enter(c) => c.f != 0
    case Test(c) => c.f != 0
    case Redirect(c) => c.f != 0
    case Call(c, _) => c.f != 0
    case Taken(c, _) => c.f != 0
    case _ => true
  }

  predicate AllLive(t: Thread)
  {
    forall j :: 0 <= j < |t| ==> Live(t[j])
  }

  ghost predicate PhaseInv(s: System)
  {
    && LockInv(s) && RunnerInv(s)
    && (forall i :: 0 <= i < |s.threads| ==> AllLive(s.threads[i]))
    && Sound(s.shared.vars)
    && PhaseOf(s.shared, s.threads[0])
    && (!s.shared.begun ==> BeforeRun(s))
  }

  /** The run's own frames only do something while they are on top. */
  lemma {:induction false} RunnerOnTop(t: Thread)
    requires Shape(t) && t != [] && RunPending(t)
    ensures Resting(t[1]) || Last(t) == t[1]
    ensures OfRunner(Last(t)) ==> Last(t) == t[1] && |t| == 2
  {
  }

  /**
    While a registration looks at the queue, "nothing queued but a size" means
    exactly that a run has begun and nothing is queued.
   */
  lemma {:induction false} TestIsAdequate(s: System, i: nat)
    requires PhaseInv(s) && i < |s.threads| && s.threads[i] != []
    requires Last(s.threads[i]).Test? || s.shared.lock == Free
    ensures RunsAtOnce(s.shared.vars) <==> s.shared.begun && s.shared.vars.stack == []
  {
    var t0 := s.threads[0];
    assert Shape(t0);
    assert HoldsLock(s.threads[i]) <==> s.shared.lock == Held(i);
    assert HoldsLock(t0) <==> s.shared.lock == Held(0);
    if RunPending(t0) {
      RunnerOnTop(t0);
    }
  }

  // ----- every step keeps the phase -----

  /** A step of any thread that is not the run's own leaves the run where it is. */
  lemma {:induction false} RunStays(s: System, i: nat)
    requires LockInv(s) && RunnerInv(s) && Enabled(s, i)
    requires !OfRunner(Last(s.threads[i]))
    ensures RunPending(Step(s, i).threads[0]) <==> RunPending(s.threads[0])
    ensures RunPending(s.threads[0]) ==> Step(s, i).threads[0][1] == s.threads[0][1]
  {
    if i == 0 {
      var t := s.threads[0];
      assert Shape(t);
      if RunPending(t) {
        RunnerOnTop(t);
        assert Init(t)[1] == t[1] && Init(t)[0] == t[0];
      }
      RunnerStep(s, 0);
    }
  }

  /** The run's own steps take its frame through its states. */
  lemma {:induction false} RunMoves(s: System)
    requires LockInv(s) && RunnerInv(s) && Enabled(s, 0)
    requires OfRunner(Last(s.threads[0]))
    ensures var fs := Act(s.kind, s.shared, 0, Last(s.threads[0])).1;
      && RunPending(s.threads[0]) && s.threads[0][1] == Last(s.threads[0])
      && (RunPending(Step(s, 0).threads[0]) <==> fs != [])
      && (fs != [] ==> Step(s, 0).threads[0][1] == fs[0])
  {
    var t := s.threads[0];
    assert Shape(t);
    assert t[|t| - 1] == Last(t);
    RunnerOnTop(t);
    RunnerStep(s, 0);
    assert Init(t) == [t[0]];
  }

  /** A push happens before the run, or between two turns of its loop. */
  lemma {:induction false} PushPhase(s: System, i: nat)
    requires PhaseInv(s) && Enabled(s, i)
    requires Last(s.threads[i]).Test? && !RunsAtOnce(s.shared.vars)
    ensures RunPending(s.threads[0]) && (s.threads[0][1].Run? || s.threads[0][1].Again?)
  {
    var t0 := s.threads[0];
    assert Shape(t0);
    assert HoldsLock(s.threads[i]) <==> s.shared.lock == Held(i);
    assert HoldsLock(t0) <==> s.shared.lock == Held(0);
    if RunPending(t0) {
      RunnerOnTop(t0);
    }
  }

  lemma {:induction false} OtherStepPhase(s: System, i: nat)
    requires PhaseInv(s) && Enabled(s, i) && !OfRunner(Last(s.threads[i]))
    requires |s.shared.vars.stack| < MAX_CALLBACKS
    ensures Sound(Step(s, i).shared.vars)
    ensures PhaseOf(Step(s, i).shared, Step(s, i).threads[0])
  {
    RunStays(s, i);
    if Last(s.threads[i]).Test? && !RunsAtOnce(s.shared.vars) {
      PushPhase(s, i);
      assert AllLive(s.threads[i]);
      PushSound(s.shared.vars, Last(s.threads[i]).c);
    }
  }

  lemma {:induction false} RunnerStepPhase(s: System)
    requires PhaseInv(s) && Enabled(s, 0) && OfRunner(Last(s.threads[0]))
    ensures Sound(Step(s, 0).shared.vars)
    ensures PhaseOf(Step(s, 0).shared, Step(s, 0).threads[0])
  {
    RunMoves(s);
    PreparedProperties(s.kind, s.shared.vars.stack);
  }

  lemma {:induction false} LiveStep(s: System, i: nat)
    requires PhaseInv(s) && Enabled(s, i)
    ensures forall k :: 0 <= k < |s.threads| ==> AllLive(Step(s, i).threads[k])
  {
    var t := s.threads[i];
    assert AllLive(t);
    assert Live(Last(t));
    assert forall j :: 0 <= j < |t| - 1 ==> Init(t)[j] == t[j];
  }

  /** Before the run, steps only gather registrations and queue them. */
  lemma {:induction false} BeforeStep(s: System, i: nat)
    requires PhaseInv(s) && Enabled(s, i) && |s.shared.vars.stack| < MAX_CALLBACKS
    requires !Step(s, i).shared.begun
    ensures BeforeRun(Step(s, i))
  {
    var t := s.threads[i];
    assert Shape(t) && AllLive(t);
    if OfRunner(Last(t)) {
      assert t[|t| - 1] == Last(t);
      RunMoves(s);
    }
    if Last(t).Test? {
      PushSound(s.shared.vars, Last(t).c);
    }
    var t' := Step(s, i).threads[i];
    if |t'| == |t| - 1 && t' != [] {
      assert Last(t') == t[|t| - 2];
    }
  }

  lemma {:induction false} PhaseStep(s: System, i: nat)
    requires PhaseInv(s) && Enabled(s, i) && |s.shared.vars.stack| < MAX_CALLBACKS
    ensures PhaseInv(Step(s, i))
  {
    LockStep(s, i);
    RunnerStep(s, i);
    LiveStep(s, i);
    if OfRunner(Last(s.threads[i])) {
      assert s.threads[i][|s.threads[i]| - 1] == Last(s.threads[i]);
      RunnerStepPhase(s);
    } else {
      OtherStepPhase(s, i);
    }
    if !Step(s, i).shared.begun {
      BeforeStep(s, i);
    }
  }

  lemma {:induction false} PhaseInitially(s: System)
    requires Initial(s)
    ensures PhaseInv(s)
  {
    var t := s.threads[0];
    assert Last(t) == t[2];
    forall i | 0 < i < |s.threads|
      ensures Last(s.threads[i]).Body?
    {
    }
  }

  /** Once a run has emptied the queue, no step fills it again. */
  lemma {:induction false} EmptinessStep(s: System, i: nat)
    requires PhaseInv(s) && Enabled(s, i)
    requires s.shared.begun && s.shared.vars.stack == []
    ensures Step(s, i).shared.begun && Step(s, i).shared.vars.stack == []
  {
    var t := s.threads[i];
    if Last(t).Test? {
      TestIsAdequate(s, i);
    }
    assert t[|t| - 1] == Last(t);
    if Last(t).Sort? {
      RunMoves(s);
    }
  }

  /** After the run the registry stays drained. */
  lemma {:induction false} DrainedStep(s: System, i: nat)
    requires PhaseInv(s) && Enabled(s, i) && NoRunner(s.threads[0])
    ensures Step(s, i).shared.vars == DRAINED == s.shared.vars
    ensures NoRunner(Step(s, i).threads[0])
  {
    var t := s.threads[i];
    assert t[|t| - 1] == Last(t);
    RunStays(s, i);
    RunnerStep(s, i);
  }
}
