/**
  What no step changes, and what every step lowers: the callbacks that have been
  started, are queued, or are still to come from some frame; and the work left.
 */
module ThreadLedger {
  import opened Sequences
  import opened Callbacks
  import opened Registry
  import opened Threads
  import opened ThreadPhases

  function StartedCallbacks(ss: seq<Started>): seq<Callback>
  {
    seq(|ss|, i requires 0 <= i < |ss| => ss[i].c)
  }

  /** The calls that a frame has yet to bring about. */
  function FrameNodes(f: Frame): multiset<Callback>
  {
    match f
    case Body(todo) => NodesAll(todo)
    case Enter(c) => Nodes(c)
    case Test(c) => Nodes(c)
    case Redirect(c) => Nodes(c)
    case Call(c, _) => Nodes(c)
    case Taken(c, _) => Nodes(c)
    case _ => multiset{}
  }

  function ThreadNodes(t: Thread): multiset<Callback>
  {
    if t == [] then multiset{} else ThreadNodes(Init(t)) + FrameNodes(Last(t))
  }

  function ThreadsNodes(ts: seq<Thread>): multiset<Callback>
  {
    if ts == [] then multiset{} else ThreadNodes(ts[0]) + ThreadsNodes(ts[1..])
  }

  /** Everything that was started, is queued, or is still to come. */
  function Ledger(s: System): multiset<Callback>
  {
    multiset(StartedCallbacks(s.shared.started)) + NodesAll(s.shared.vars.stack) + ThreadsNodes(s.threads)
  }

  lemma {:induction false} AddNone<T>(a: multiset<T>)
    ensures a + multiset{} == a
  {
  }

  lemma {:induction false} NoneAdd<T>(a: multiset<T>)
    ensures multiset{} + a == a
  {
  }

  lemma {:induction false} Assoc<T>(a: multiset<T>, b: multiset<T>, c: multiset<T>)
    ensures a + (b + c) == (a + b) + c
  {
  }

  lemma {:induction false} Exchange<T>(a: multiset<T>, b: multiset<T>, c: multiset<T>)
    ensures (a + b) + c == (c + b) + a
  {
  }

  lemma {:induction false} Carry<T>(a: multiset<T>, b: multiset<T>, c: multiset<T>, d: multiset<T>, e: multiset<T>)
    requires b + c == d + e
    ensures (a + b) + c == (a + d) + e
  {
    assert (a + b) + c == a + (b + c);
    assert (a + d) + e == a + (d + e);
  }

  lemma {:induction false} ThreadsNodesUpdate(ts: seq<Thread>, i: nat, t: Thread)
    requires i < |ts|
    ensures ThreadsNodes(ts[i := t]) + ThreadNodes(ts[i]) == ThreadsNodes(ts) + ThreadNodes(t)
  {
    var ts' := ts[i := t];
    if i == 0 {
      assert ts'[1..] == ts[1..];
      Exchange(ThreadNodes(t), ThreadsNodes(ts[1..]), ThreadNodes(ts[0]));
    } else {
      ThreadsNodesUpdate(ts[1..], i - 1, t);
      assert ts'[1..] == ts[1..][i - 1 := t];
      Carry(ThreadNodes(ts[0]), ThreadsNodes(ts'[1..]), ThreadNodes(ts[i]), ThreadsNodes(ts[1..]), ThreadNodes(t));
    }
  }

  /** What the frames `fs` stand for. */
  function FramesNodes(fs: seq<Frame>): multiset<Callback>
  {
    if fs == [] then multiset{}
    else if |fs| == 1 then FrameNodes(fs[0])
    else FrameNodes(fs[0]) + FrameNodes(fs[1])
  }

  lemma {:induction false} ThreadNodesAppend(base: Thread, fs: seq<Frame>)
    requires |fs| <= 2
    ensures ThreadNodes(base + fs) == ThreadNodes(base) + FramesNodes(fs)
  {
    if fs == [] {
      assert base + fs == base;
      AddNone(ThreadNodes(base));
    } else if |fs| == 1 {
      assert Init(base + fs) == base;
    } else {
      assert Init(base + fs) == base + [fs[0]];
      assert Init(base + [fs[0]]) == base;
      Assoc(ThreadNodes(base), FrameNodes(fs[0]), FrameNodes(fs[1]));
    }
  }

  lemma {:induction false} StartedAppend(ss: seq<Started>, x: Started)
    ensures StartedCallbacks(ss + [x]) == StartedCallbacks(ss) + [x.c]
  {
  }

  lemma {:induction false} NodesOne(c: Callback)
    ensures NodesAll([c]) == Nodes(c)
  {
    TailOne(c);
  }

  lemma {:induction false} NodesOfStack(stack: seq<Callback>)
    requires stack != []
    ensures NodesAll(stack) == NodesAll(Init(stack)) + Nodes(Last(stack))
  {
    InitLast(stack);
    NodesConcat(Init(stack), [Last(stack)]);
    NodesOne(Last(stack));
  }

  /** An action's part of the ledger. */
  function PartNodes(g: Shared, frames: multiset<Callback>): multiset<Callback>
  {
    multiset(StartedCallbacks(g.started)) + NodesAll(g.vars.stack) + frames
  }

  /** It is the same before and after. */
  ghost predicate Conserves(g: Shared, f: Frame, g': Shared, fs: seq<Frame>)
  {
    PartNodes(g', FramesNodes(fs)) == PartNodes(g, FrameNodes(f))
  }

  lemma {:induction false} SameParts(g: Shared, f: Frame, g': Shared, fs: seq<Frame>)
    requires g'.started == g.started
    requires NodesAll(g'.vars.stack) == NodesAll(g.vars.stack)
    requires FramesNodes(fs) == FrameNodes(f)
    ensures Conserves(g, f, g', fs)
  {
  }

  lemma {:induction false} PushedParts(g: Shared, c: Callback, g': Shared, fs: seq<Frame>)
    requires g'.started == g.started
    requires NodesAll(g'.vars.stack) == NodesAll(g.vars.stack) + Nodes(c)
    requires FramesNodes(fs) == multiset{}
    ensures Conserves(g, Test(c), g', fs)
  {
    Assoc(multiset(StartedCallbacks(g.started)), NodesAll(g.vars.stack), Nodes(c));
    AddNone(multiset(StartedCallbacks(g.started)) + NodesAll(g'.vars.stack));
  }

  lemma {:induction false} PushConserves(kind: Kind, g: Shared, i: nat, c: Callback)
    ensures var r := Act(kind, g, i, Test(c)); Conserves(g, Test(c), r.0, r.1)
  {
    var r := Act(kind, g, i, Test(c));
    if RunsAtOnce(g.vars) {
      SameParts(g, Test(c), r.0, r.1);
    } else {
      NodesConcat(g.vars.stack, [c]);
      NodesOne(c);
      PushedParts(g, c, r.0, r.1);
    }
  }

  lemma {:induction false} RegroupStart<T>(a: multiset<T>, x: multiset<T>, b: multiset<T>, c: multiset<T>)
    ensures (a + x) + b + c == a + b + (x + c)
  {
  }

  lemma {:induction false} CallConserves(kind: Kind, g: Shared, i: nat, c: Callback, how: How)
    requires c.f != 0
    ensures var r := Act(kind, g, i, Call(c, how)); Conserves(g, Call(c, how), r.0, r.1)
  {
    StartedAppend(g.started, Started(c, i, how));
    RegroupStart(multiset(StartedCallbacks(g.started)), multiset{c}, NodesAll(g.vars.stack), NodesAll(c.registers));
  }

  lemma {:induction false} RegroupTake<T>(a: multiset<T>, b: multiset<T>, x: multiset<T>)
    ensures a + b + x == a + (b + x) + multiset{}
  {
  }

  lemma {:induction false} DrainConserves(g: Shared)
    requires g.vars.stack == []
    ensures Conserves(g, Loop, g.(vars := DRAINED), [Drained])
  {
    SameParts(g, Loop, g.(vars := DRAINED), [Drained]);
  }

  lemma {:induction false} TakeConserves(g: Shared, early: nat, how: How)
    requires g.vars.stack != []
    ensures Conserves(g, Loop, g.(vars := Pop(g.vars), early := early), [Taken(Last(g.vars.stack), how)])
  {
    NodesOfStack(g.vars.stack);
    FramesOfTaken(Last(g.vars.stack), how);
    RegroupTake(multiset(StartedCallbacks(g.started)), NodesAll(Init(g.vars.stack)), Nodes(Last(g.vars.stack)));
  }

  lemma {:induction false} FramesOfTaken(c: Callback, how: How)
    ensures FramesNodes([Taken(c, how)]) == Nodes(c)
  {
  }

  lemma {:induction false} LoopConserves(kind: Kind, g: Shared, i: nat)
    requires AllNonNull(g.vars.stack)
    ensures var r := Act(kind, g, i, Loop); Conserves(g, Loop, r.0, r.1)
  {
    ActLoop(kind, g, i);
    if g.vars.stack == [] {
      DrainConserves(g);
    } else {
      assert Last(g.vars.stack) in g.vars.stack;
      TakeConserves(g, Act(kind, g, i, Loop).0.early, NextHow(g));
    }
  }

  lemma {:induction false} BodyConserves(kind: Kind, g: Shared, i: nat, todo: seq<Callback>)
    ensures var r := Act(kind, g, i, Body(todo)); Conserves(g, Body(todo), r.0, r.1)
  {
    var r := Act(kind, g, i, Body(todo));
    if todo != [] {
      var more := NodesAll(todo[1..]);
      assert NodesAll(todo) == Nodes(todo[0]) + more;
      if todo[0].f == 0 {
        NoneAdd(more);
        assert FramesNodes(r.1) == more;
      } else {
        assert r.1[0] == Body(todo[1..]) && r.1[1] == Enter(todo[0]);
        assert FramesNodes(r.1) == more + Nodes(todo[0]);
      }
    }
    SameParts(g, Body(todo), r.0, r.1);
  }

  lemma {:induction false} FramesOfCall(c: Callback, how: How)
    ensures FramesNodes([Again, Call(c, how)]) == Nodes(c)
  {
    NoneAdd(Nodes(c));
  }

  lemma {:induction false} TakenConserves(kind: Kind, g: Shared, i: nat, c: Callback, how: How)
    ensures var r := Act(kind, g, i, Taken(c, how)); Conserves(g, Taken(c, how), r.0, r.1)
  {
    var r := Act(kind, g, i, Taken(c, how));
    assert r == (g.(lock := Free), [Again, Call(c, how)]);
    FramesOfCall(c, how);
    SameParts(g, Taken(c, how), r.0, r.1);
  }

  /** These actions touch nothing but the lock, and keep the callback in hand. */
  lemma {:induction false} StillConserves(kind: Kind, g: Shared, i: nat, top: Frame)
    requires top.Enter? || top.Redirect? || top.Leave? || top.Run? || top.Again? || top.Drained?
    ensures var r := Act(kind, g, i, top); Conserves(g, top, r.0, r.1)
  {
    var r := Act(kind, g, i, top);
    assert r.0.started == g.started && r.0.vars == g.vars;
    assert FramesNodes(r.1) == FrameNodes(top) by {
      assert top.Enter? ==> r.1 == [Test(top.c)];
      assert top.Redirect? ==> r.1 == [Call(top.c, AtOnce)];
      assert top.Run? ==> r.1 == [Sort];
      assert top.Again? ==> r.1 == [Loop];
      assert top.Leave? || top.Drained? ==> r.1 == [];
    }
    SameParts(g, top, r.0, r.1);
  }

  lemma {:induction false} SortConserves(kind: Kind, g: Shared, i: nat)
    ensures var r := Act(kind, g, i, Sort); Conserves(g, Sort, r.0, r.1)
  {
    var r := Act(kind, g, i, Sort);
    PreparedProperties(kind, g.vars.stack);
    assert r.0.started == g.started && r.0.vars.stack == Prepared(kind, g.vars.stack);
    assert r.1[0] == Loop && FramesNodes(r.1) == multiset{} == FrameNodes(Sort);
    SameParts(g, Sort, r.0, r.1);
  }

  /** One action moves entries between the started, the queue and its frames, and loses or adds none. */
  lemma {:induction false} ActConserves(kind: Kind, g: Shared, i: nat, top: Frame)
    requires Live(top) && AllNonNull(g.vars.stack)
    ensures var r := Act(kind, g, i, top); Conserves(g, top, r.0, r.1)
  {
    match top
    case Body(todo) => BodyConserves(kind, g, i, todo);
    case Test(c) => PushConserves(kind, g, i, c);
    case Call(c, how) => CallConserves(kind, g, i, c, how);
    case Sort => SortConserves(kind, g, i);
    case Loop => LoopConserves(kind, g, i);
    case Taken(c, how) => TakenConserves(kind, g, i, c, how);
    case _ => StillConserves(kind, g, i, top);
  }

  lemma {:induction false} Balance<T>(a: multiset<T>, b: multiset<T>, c: multiset<T>,
                                     a': multiset<T>, b': multiset<T>, c': multiset<T>,
                                     rest: multiset<T>, all: multiset<T>, all': multiset<T>)
    requires a' + b' + c' == a + b + c
    requires all' + (rest + c) == all + (rest + c')
    ensures a' + b' + all' == a + b + all
  {
    forall x
      ensures (a' + b' + all')[x] == (a + b + all)[x]
    {
      assert (a' + b' + c')[x] == (a + b + c)[x];
      assert (all' + (rest + c))[x] == (all + (rest + c'))[x];
    }
  }

  /** Conservation: no step of any thread changes the ledger. */
  lemma {:induction false} LedgerStep(s: System, i: nat)
    requires PhaseInv(s) && Enabled(s, i)
    ensures Ledger(Step(s, i)) == Ledger(s)
  {
    var t := s.threads[i];
    var r := Act(s.kind, s.shared, i, Last(t));
    assert AllLive(t) && Last(t) == t[|t| - 1];
    ActConserves(s.kind, s.shared, i, Last(t));
    ActWidth(s.kind, s.shared, i, Last(t));
    ThreadsNodesUpdate(s.threads, i, Init(t) + r.1);
    ThreadNodesAppend(Init(t), r.1);
    Balance(multiset(StartedCallbacks(s.shared.started)), NodesAll(s.shared.vars.stack), FrameNodes(Last(t)),
            multiset(StartedCallbacks(r.0.started)), NodesAll(r.0.vars.stack), FramesNodes(r.1),
            ThreadNodes(Init(t)), ThreadsNodes(s.threads), ThreadsNodes(Step(s, i).threads));
  }

  /** The queue is never longer than the ledger. */
  lemma {:induction false} QueueBound(s: System)
    requires PhaseInv(s)
    ensures |s.shared.vars.stack| <= |Ledger(s)|
  {
    NodesBound(s.shared.vars.stack);
  }

  // ----- the work left -----

  function FrameCost(f: Frame): nat
  {
    match f
    case Body(todo) => 1 + 10 * WeightAll(todo)
    case Enter(c) => 10 * Weight(c) - 1
    case Test(c) => 10 * Weight(c) - 2
    case Redirect(c) => 10 * Weight(c) - 3
    case Leave => 1
    case Call(c, _) => 10 * Weight(c) - 8
    case Run => 4
    case Sort => 3
    case Loop => 2
    case Taken(c, _) => 10 * Weight(c) - 4
    case Again => 3
    case Drained => 1
  }

  function ThreadCost(t: Thread): nat
  {
    if t == [] then 0 else ThreadCost(Init(t)) + FrameCost(Last(t))
  }

  function ThreadsCost(ts: seq<Thread>): nat
  {
    if ts == [] then 0 else ThreadCost(ts[0]) + ThreadsCost(ts[1..])
  }

  /** An upper bound for the number of steps that are left, in any schedule. */
  function Cost(s: System): int
  {
    10 * WeightAll(s.shared.vars.stack) - 4 * |s.shared.vars.stack| + ThreadsCost(s.threads)
  }

  lemma {:induction false} CostNonNegative(s: System)
    ensures Cost(s) >= 0
  {
    WeightBounds(s.shared.vars.stack);
  }

  lemma {:induction false} ThreadsCostUpdate(ts: seq<Thread>, i: nat, t: Thread)
    requires i < |ts|
    ensures ThreadsCost(ts[i := t]) + ThreadCost(ts[i]) == ThreadsCost(ts) + ThreadCost(t)
  {
    if i == 0 {
      assert ts[0 := t][1..] == ts[1..];
    } else {
      ThreadsCostUpdate(ts[1..], i - 1, t);
      assert ts[i := t][1..] == ts[1..][i - 1 := t];
    }
  }

  function FramesCost(fs: seq<Frame>): nat
  {
    (if fs == [] then 0 else FrameCost(fs[0])) + (if |fs| <= 1 then 0 else FrameCost(fs[1]))
  }

  lemma {:induction false} ThreadCostAppend(base: Thread, fs: seq<Frame>)
    requires |fs| <= 2
    ensures ThreadCost(base + fs) == ThreadCost(base) + FramesCost(fs)
  {
    if fs == [] {
      assert base + fs == base;
    } else if |fs| == 1 {
      assert Init(base + fs) == base;
    } else {
      assert Init(base + fs) == base + [fs[0]];
      assert Init(base + [fs[0]]) == base;
    }
  }

  lemma {:induction false} WeightOne(c: Callback)
    ensures WeightAll([c]) == Weight(c)
  {
    TailOne(c);
  }

  lemma {:induction false} WeightOfStack(stack: seq<Callback>)
    requires stack != []
    ensures WeightAll(stack) == WeightAll(Init(stack)) + Weight(Last(stack))
  {
    InitLast(stack);
    WeightConcat(Init(stack), [Last(stack)]);
    WeightOne(Last(stack));
  }

  /** The work that an action's part of the system stands for. */
  function PartCost(g: Shared, fs: seq<Frame>): int
  {
    10 * WeightAll(g.vars.stack) - 4 * |g.vars.stack| + FramesCost(fs)
  }

  lemma {:induction false} PushWorks(kind: Kind, g: Shared, i: nat, c: Callback)
    ensures var r := Act(kind, g, i, Test(c)); PartCost(r.0, r.1) < PartCost(g, [Test(c)])
  {
    WeightConcat(g.vars.stack, [c]);
    WeightOne(c);
  }

  lemma {:induction false} LoopWorks(kind: Kind, g: Shared, i: nat)
    requires AllNonNull(g.vars.stack)
    ensures var r := Act(kind, g, i, Loop); PartCost(r.0, r.1) < PartCost(g, [Loop])
  {
    if g.vars.stack != [] {
      assert Last(g.vars.stack) in g.vars.stack;
      WeightOfStack(g.vars.stack);
    }
  }

  lemma {:induction false} BodyWorks(kind: Kind, g: Shared, i: nat, todo: seq<Callback>)
    ensures var r := Act(kind, g, i, Body(todo)); PartCost(r.0, r.1) < PartCost(g, [Body(todo)])
  {
  }

  lemma {:induction false} SortWorks(kind: Kind, g: Shared, i: nat)
    ensures var r := Act(kind, g, i, Sort); PartCost(r.0, r.1) < PartCost(g, [Sort])
  {
    PreparedProperties(kind, g.vars.stack);
  }

  /** The other actions leave the queue alone and their frames are cheaper. */
  lemma {:induction false} QuietWorks(kind: Kind, g: Shared, i: nat, top: Frame)
    requires !top.Body? && !top.Test? && !top.Sort? && !top.Loop?
    ensures var r := Act(kind, g, i, top); r.0.vars == g.vars && FramesCost(r.1) < FrameCost(top)
  {
    if top.Call? {
      assert Weight(top.c) == 1 + WeightAll(top.c.registers);
    }
  }

  lemma {:induction false} ActWorks(kind: Kind, g: Shared, i: nat, top: Frame)
    requires AllNonNull(g.vars.stack)
    ensures var r := Act(kind, g, i, top); PartCost(r.0, r.1) < PartCost(g, [top])
  {
    match top
    case Body(todo) => BodyWorks(kind, g, i, todo);
    case Test(c) => PushWorks(kind, g, i, c);
    case Sort => SortWorks(kind, g, i);
    case Loop => LoopWorks(kind, g, i);
    case _ => QuietWorks(kind, g, i, top);
  }

  /** Every step of every thread lowers the work left. */
  lemma {:induction false} CostStep(s: System, i: nat)
    requires PhaseInv(s) && Enabled(s, i)
    ensures Cost(Step(s, i)) < Cost(s)
  {
    var t := s.threads[i];
    var r := Act(s.kind, s.shared, i, Last(t));
    ActWorks(s.kind, s.shared, i, Last(t));
    ActWidth(s.kind, s.shared, i, Last(t));
    ThreadsCostUpdate(s.threads, i, Init(t) + r.1);
    ThreadCostAppend(Init(t), r.1);
  }
}
