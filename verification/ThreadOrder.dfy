/**
  Registrations that come during a run never disturb the order of those that
  were queued before it: in every schedule these start in the run's order.
 */
module ThreadOrder {
  import opened Sequences
  import opened Callbacks
  import opened Registry
  import opened Threads
  import opened ThreadPhases

  /** Of the callbacks that started, those that came to be called in one way, in order. */
  function StartsOf(how: How, ss: seq<Started>): seq<Callback>
  {
    if ss == [] then [] else StartsOf(how, Init(ss)) + (if Last(ss).how == how then [Last(ss).c] else [])
  }

  /** A callback that a thread is about to start, and how it came to that. */
  function InHand(how: How, t: Thread): seq<Callback>
  {
    if t == [] then []
    else
      match Last(t)
      case Call(c, h) => if h == how then [c] else []
      case Taken(c, h) => if h == how then [c] else []
      case _ => []
  }

  /**
    At every point of a run, the early callbacks that are still queued are the
    bottom of the sorted queue, and those that started, and the one in hand, are
    the rest of it, taken from its end.
   */
  ghost predicate InOrder(kind: Kind, g: Shared, hand: seq<Callback>)
  {
    g.begun ==>
      var sorted := Prepared(kind, g.queue);
      && g.early <= |g.vars.stack| && g.early <= |sorted|
      && g.vars.stack[..g.early] == sorted[..g.early]
      && StartsOf(Early, g.started) + hand == Reverse(sorted[g.early..])
  }

  ghost predicate OrderInv(s: System)
  {
    && |s.threads| > 0
    && (forall i :: 0 < i < |s.threads| ==> InHand(Early, s.threads[i]) == [])
    && (!s.shared.begun ==> s.shared.started == [] && InHand(Early, s.threads[0]) == [])
    && InOrder(s.kind, s.shared, InHand(Early, s.threads[0]))
  }

  lemma {:induction false} StartsAppend(how: How, ss: seq<Started>, x: Started)
    ensures StartsOf(how, ss + [x]) == StartsOf(how, ss) + (if x.how == how then [x.c] else [])
  {
    Appended(ss, x);
  }

  lemma {:induction false} ReverseFrom<T>(s: seq<T>, k: nat)
    requires k < |s|
    ensures Reverse(s[k..]) == Reverse(s[k + 1..]) + [s[k]]
  {
  }

  /** What a step leaves in the hand of its thread. */
  lemma {:induction false} HandAfter(how: How, s: System, i: nat)
    requires PhaseInv(s) && Enabled(s, i)
    ensures var fs := Act(s.kind, s.shared, i, Last(s.threads[i])).1;
      InHand(how, Step(s, i).threads[i]) == InHand(how, fs)
  {
    var t := s.threads[i];
    var fs := Act(s.kind, s.shared, i, Last(t)).1;
    assert Shape(t);
    if fs == [] && |t| > 1 {
      assert Last(Init(t)) == t[|t| - 2];
    }
  }

  lemma {:induction false} StartKeepsOrder(s: System, i: nat)
    requires PhaseInv(s) && OrderInv(s) && Enabled(s, i) && Last(s.threads[i]).Call?
    ensures OrderInv(Step(s, i))
  {
    var t := s.threads[i];
    HandAfter(Early, s, i);
    StartsAppend(Early, s.shared.started, Started(Last(t).c, i, Last(t).how));
    assert s.shared.begun;
    assert InHand(Early, t) == if Last(t).how == Early then [Last(t).c] else [];
    assert i != 0 ==> InHand(Early, t) == [];
  }

  /** While early callbacks are left, the last of the queue is the last of them. */
  lemma {:induction false} EarlyTaken(stack: seq<Callback>, sorted: seq<Callback>)
    requires stack != [] && |stack| <= |sorted| && stack == sorted[..|stack|]
    ensures Last(stack) == sorted[|stack| - 1]
    ensures Init(stack) == sorted[..|stack| - 1]
    ensures Reverse(sorted[|stack| - 1..]) == Reverse(sorted[|stack|..]) + [Last(stack)]
  {
    ReverseFrom(sorted, |stack| - 1);
  }

  lemma {:induction false} LateTaken(stack: seq<Callback>, early: nat)
    requires early < |stack|
    ensures Init(stack)[..early] == stack[..early]
  {
  }

  lemma {:induction false} EarlyInOrder(kind: Kind, g: Shared)
    requires g.begun && InOrder(kind, g, []) && g.vars.stack != [] && |g.vars.stack| <= g.early
    ensures InOrder(kind, g.(vars := Pop(g.vars), early := |g.vars.stack| - 1), [Last(g.vars.stack)])
  {
    var stack, sorted, started := g.vars.stack, Prepared(kind, g.queue), StartsOf(Early, g.started);
    TakeAll(stack);
    EarlyTaken(stack, sorted);
    TakeAll(Init(stack));
    EmptyConcat(started);
    assert started == Reverse(sorted[|stack|..]);
  }

  lemma {:induction false} LateInOrder(kind: Kind, g: Shared)
    requires g.begun && InOrder(kind, g, []) && g.early < |g.vars.stack|
    ensures InOrder(kind, g.(vars := Pop(g.vars)), [])
  {
    LateTaken(g.vars.stack, g.early);
  }

  lemma {:induction false} HandOfTaken(c: Callback, how: How)
    ensures InHand(Early, [Taken(c, how)]) == if how == Early then [c] else []
  {
  }

  lemma {:induction false} TakeInOrder(kind: Kind, g: Shared)
    requires g.begun && InOrder(kind, g, [])
    requires g.vars.stack != [] && Last(g.vars.stack).f != 0
    ensures var r := Act(kind, g, 0, Loop); InOrder(kind, r.0, InHand(Early, r.1))
  {
    ActLoop(kind, g, 0);
    HandOfTaken(Last(g.vars.stack), NextHow(g));
    if NextHow(g).Early? {
      EarlyInOrder(kind, g);
    } else {
      assert g.(vars := Pop(g.vars), early := g.early) == g.(vars := Pop(g.vars));
      LateInOrder(kind, g);
    }
  }

  lemma {:induction false} LoopKeepsOrder(s: System, i: nat)
    requires PhaseInv(s) && OrderInv(s) && Enabled(s, i) && Last(s.threads[i]).Loop?
    ensures OrderInv(Step(s, i))
  {
    var g := s.shared;
    RunnerIsFirst(s, i);
    RunMoves(s);
    HandAfter(Early, s, 0);
    if g.vars.stack == [] {
      ActLoop(s.kind, g, 0);
    } else {
      assert Last(g.vars.stack) in g.vars.stack;
      TakeInOrder(s.kind, g);
    }
  }

  lemma {:induction false} SortKeepsOrder(s: System, i: nat)
    requires PhaseInv(s) && OrderInv(s) && Enabled(s, i) && Last(s.threads[i]).Sort?
    ensures OrderInv(Step(s, i))
  {
    var t := s.threads[i];
    assert t[|t| - 1] == Last(t);
    RunMoves(s);
    HandAfter(Early, s, 0);
    PreparedProperties(s.kind, s.shared.vars.stack);
    assert s.shared.started == [];
  }

  lemma {:induction false} PushKeepsOrder(s: System, i: nat)
    requires PhaseInv(s) && OrderInv(s) && Enabled(s, i) && Last(s.threads[i]).Test?
    ensures OrderInv(Step(s, i))
  {
    var stack := s.shared.vars.stack;
    HandAfter(Early, s, i);
    if s.shared.begun {
      assert (stack + [Last(s.threads[i]).c])[..s.shared.early] == stack[..s.shared.early];
    }
  }

  /** The other actions change neither the queue nor what has started, and keep what is in hand. */
  lemma {:induction false} QuietKeepsOrder(s: System, i: nat)
    requires PhaseInv(s) && OrderInv(s) && Enabled(s, i)
    requires var f := Last(s.threads[i]); !f.Call? && !f.Loop? && !f.Sort? && !f.Test?
    ensures OrderInv(Step(s, i))
  {
    QuietAct(Early, s.kind, s.shared, i, Last(s.threads[i]));
    HandAfter(Early, s, i);
    assert InHand(Early, s.threads[i]) == InHand(Early, [Last(s.threads[i])]);
  }

  lemma {:induction false} QuietAct(how: How, kind: Kind, g: Shared, i: nat, top: Frame)
    requires !top.Call? && !top.Loop? && !top.Sort? && !top.Test? && how != AtOnce
    ensures var r := Act(kind, g, i, top);
      && InHand(how, r.1) == InHand(how, [top])
      && r.0 == g.(lock := r.0.lock)
  {
  }

  lemma {:induction false} OrderStep(s: System, i: nat)
    requires PhaseInv(s) && OrderInv(s) && Enabled(s, i)
    ensures OrderInv(Step(s, i))
  {
    match Last(s.threads[i])
    case Call(_, _) => StartKeepsOrder(s, i);
    case Loop => LoopKeepsOrder(s, i);
    case Sort => SortKeepsOrder(s, i);
    case Test(_) => PushKeepsOrder(s, i);
    case _ => QuietKeepsOrder(s, i);
  }

  lemma {:induction false} OrderInitially(s: System)
    requires Initial(s)
    ensures OrderInv(s)
  {
  }
}
