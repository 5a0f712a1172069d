/**
  The trace of a run in closed form. While other callbacks are queued, what a
  callback registers is queued too, and taken last-registered first before
  anything older. The last queued callback finds the queue empty: what it
  registers runs at once, inside its own call.
 */
module RunTrace {
  import opened Sequences
  import opened Callbacks
  import opened Capacity
  import opened PrioritySort
  import opened Registry

  /** A callback taken while others remain: it returns, and then its registrations are taken. */
  function Queued(c: Callback): seq<Event>
    decreases c
  {
    if c.f == 0 then [] else [Start(c), Finish(c)] + QueuedAll(c.registers)
  }

  /** Taking all of `cs` from the end. */
  function QueuedAll(cs: seq<Callback>): seq<Event>
    decreases cs
  {
    if cs == [] then [] else QueuedAll(cs[1..]) + Queued(cs[0])
  }

  /** A callback called while nothing is queued: its registrations run nested in its own call. */
  function Immediate(c: Callback): seq<Event>
    decreases c
  {
    if c.f == 0 then [] else [Start(c)] + ImmediateAll(c.registers) + [Finish(c)]
  }

  function ImmediateAll(cs: seq<Callback>): seq<Event>
    decreases cs
  {
    if cs == [] then [] else Immediate(cs[0]) + ImmediateAll(cs[1..])
  }

  /** The trace of emptying `stack` from its end. */
  function Drain(stack: seq<Callback>): seq<Event>
  {
    if stack == [] then [] else QueuedAll(stack[1..]) + Immediate(stack[0])
  }

  /**
    The trace of a run, by the order in which it takes what was queued: every
    callback but the last is followed by what it registered, last-registered
    first; the last one contains what it registers, first-registered first.
   */
  function RunEvents(order: seq<Callback>): seq<Event>
  {
    if order == [] then []
    else if |order| == 1 then Immediate(order[0])
    else Queued(order[0]) + RunEvents(order[1..])
  }

  lemma {:induction false} QueuedAllConcat(a: seq<Callback>, b: seq<Callback>)
    ensures QueuedAll(a + b) == QueuedAll(b) + QueuedAll(a)
  {
    if a == [] {
      EmptyConcat(b);
      EmptyConcat(QueuedAll(b));
    } else {
      ConcatTail(a, b);
      QueuedAllConcat(a[1..], b);
      ConcatAssoc(QueuedAll(b), QueuedAll(a[1..]), Queued(a[0]));
    }
  }

  lemma {:induction false} ImmediateAllConcat(a: seq<Callback>, b: seq<Callback>)
    ensures ImmediateAll(a + b) == ImmediateAll(a) + ImmediateAll(b)
  {
    if a == [] {
      EmptyConcat(b);
      EmptyConcat(ImmediateAll(b));
    } else {
      ConcatTail(a, b);
      ImmediateAllConcat(a[1..], b);
      ConcatAssoc(Immediate(a[0]), ImmediateAll(a[1..]), ImmediateAll(b));
    }
  }

  lemma {:induction false} ImmediateAllOne(c: Callback)
    ensures ImmediateAll([c]) == Immediate(c)
  {
    TailOne(c);
  }

  lemma {:induction false} QueuedAllNonNull(cs: seq<Callback>)
    ensures QueuedAll(NonNull(cs)) == QueuedAll(cs)
  {
    if cs != [] {
      var h := if cs[0].f == 0 then [] else [cs[0]];
      QueuedAllNonNull(cs[1..]);
      QueuedAllConcat(h, NonNull(cs[1..]));
      if h != [] {
        QueuedAllOne(cs[0]);
      }
    }
  }

  lemma {:induction false} Regroup<T>(a: seq<T>, b: seq<T>, c: seq<T>, d: seq<T>)
    ensures ((a + b) + c) + d == a + ((b + c) + d)
  {
  }

  /** One turn of the run loop while others remain queued. */
  lemma {:induction false} DrainTurn(rest: seq<Callback>, c: Callback)
    requires rest != [] && c.f != 0
    ensures Drain(rest + [c]) == [Start(c), Finish(c)] + Drain(rest + NonNull(c.registers))
  {
    var kids := NonNull(c.registers);
    calc {
      Drain(rest + [c]);
      { assert (rest + [c])[1..] == rest[1..] + [c]; }
      QueuedAll(rest[1..] + [c]) + Immediate(rest[0]);
      { QueuedAllConcat(rest[1..], [c]); QueuedAllOne(c); }
      (Queued(c) + QueuedAll(rest[1..])) + Immediate(rest[0]);
      { QueuedAllNonNull(c.registers); }
      (([Start(c), Finish(c)] + QueuedAll(kids)) + QueuedAll(rest[1..])) + Immediate(rest[0]);
      { Regroup([Start(c), Finish(c)], QueuedAll(kids), QueuedAll(rest[1..]), Immediate(rest[0])); }
      [Start(c), Finish(c)] + ((QueuedAll(kids) + QueuedAll(rest[1..])) + Immediate(rest[0]));
      { QueuedAllConcat(rest[1..], kids); ConcatTail(rest, kids); }
      [Start(c), Finish(c)] + Drain(rest + kids);
    }
  }

  lemma {:induction false} QueuedAllOne(c: Callback)
    ensures QueuedAll([c]) == Queued(c)
  {
    TailOne(c);
  }

  /** The last turn of the run loop. */
  lemma {:induction false} DrainLast(c: Callback)
    ensures Drain([c]) == Immediate(c)
  {
    assert QueuedAll([c][1..]) == [];
  }

  // ----- what registering and calling do to a registry -----

  /** A registry's fields together with what an observer of its callbacks has seen. */
  datatype View = View(vars: Vars, trace: seq<Event>)

  /** One registration: ignored, run at once, or queued. */
  function Registered(w: View, c: Callback): View
  {
    if c.f == 0 then w
    else if RunsAtOnce(w.vars) then w.(trace := w.trace + Immediate(c))
    else w.(vars := Push(w.vars, c))
  }

  function RegisteredAll(w: View, cs: seq<Callback>): View
  {
    if cs == [] then w else Registered(RegisteredAll(w, Init(cs)), Last(cs))
  }

  /** One call: the callback starts, makes its registrations in order, and finishes. */
  function Called(w: View, c: Callback): View
  {
    var inside := RegisteredAll(w.(trace := w.trace + [Start(c)]), c.registers);
    inside.(trace := inside.trace + [Finish(c)])
  }

  lemma {:induction false} RegisteredAllNext(w: View, cs: seq<Callback>, k: nat)
    requires k < |cs|
    ensures RegisteredAll(w, cs[..k + 1]) == Registered(RegisteredAll(w, cs[..k]), cs[k])
  {
    assert Init(cs[..k + 1]) == cs[..k];
  }

  /** With nothing queued in a run, registrations only show in the trace. */
  lemma {:induction false} RegisteredAllAtOnce(w: View, cs: seq<Callback>)
    requires RunsAtOnce(w.vars)
    ensures RegisteredAll(w, cs) == w.(trace := w.trace + ImmediateAll(cs))
  {
    if cs != [] {
      RegisteredAllAtOnce(w, Init(cs));
      InitLast(cs);
      ImmediateAllConcat(Init(cs), [Last(cs)]);
      ImmediateAllOne(Last(cs));
      assert (w.trace + ImmediateAll(Init(cs))) + Immediate(Last(cs)) == w.trace + ImmediateAll(cs);
    } else {
      assert w.trace + [] == w.trace;
    }
  }

  /** Otherwise they only show in the queue. */
  lemma {:induction false} RegisteredAllQueued(w: View, cs: seq<Callback>)
    requires !RunsAtOnce(w.vars)
    ensures !RunsAtOnce(RegisteredAll(w, cs).vars)
    ensures RegisteredAll(w, cs).vars.stack == w.vars.stack + NonNull(cs)
    ensures RegisteredAll(w, cs).trace == w.trace
  {
    if cs == [] {
      EmptyConcat(w.vars.stack);
    } else {
      RegisteredAllQueued(w, Init(cs));
      NonNullSnoc(cs);
      EmptyConcat(NonNull(Init(cs)));
      ConcatAssoc(w.vars.stack, NonNull(Init(cs)), [Last(cs)]);
    }
  }

  /** Registrations before any run only fill the queue, whose block grows as Capacity says. */
  lemma {:induction false} RegisteredBeforeRun(cs: seq<Callback>)
    ensures RegisteredAll(View(FRESH, []), cs) == View(Vars(NonNull(cs), SizeAfter(|NonNull(cs)|)), [])
  {
    if cs != [] {
      RegisteredBeforeRun(Init(cs));
      NonNullSnoc(cs);
      EmptyConcat(NonNull(Init(cs)));
    }
  }

  /** What the first `k` registrations of a callback do. */
  function RegisteredFirst(w: View, cs: seq<Callback>, k: nat): View
    requires k <= |cs|
  {
    RegisteredAll(w, cs[..k])
  }

  lemma {:induction false} RegisteredFirstEnds(w: View, cs: seq<Callback>)
    ensures RegisteredFirst(w, cs, 0) == w
    ensures RegisteredFirst(w, cs, |cs|) == RegisteredAll(w, cs)
  {
    TakeAll(cs);
  }

  /** After `k` of them, the next finds a registry that runs at once or still has room. */
  lemma {:induction false} RegisteredFirstNext(w: View, cs: seq<Callback>, k: nat)
    requires k < |cs|
    requires Accepts(w.vars, |cs|)
    ensures RegisteredFirst(w, cs, k + 1) == Registered(RegisteredFirst(w, cs, k), cs[k])
    ensures Accepts(RegisteredFirst(w, cs, k).vars, 1)
  {
    RegisteredAllNext(w, cs, k);
    if RunsAtOnce(w.vars) {
      RegisteredAllAtOnce(w, cs[..k]);
    } else {
      RegisteredAllQueued(w, cs[..k]);
      NonNullIdentity(cs[..k]);
    }
  }

  /** A call while nothing is queued is a nested block of events and leaves the registry alone. */
  lemma {:induction false} CalledAtOnce(w: View, c: Callback)
    requires RunsAtOnce(w.vars) && c.f != 0
    ensures Called(w, c) == w.(trace := w.trace + Immediate(c))
  {
    RegisteredAllAtOnce(w.(trace := w.trace + [Start(c)]), c.registers);
    Regroup(w.trace, [Start(c)], ImmediateAll(c.registers), [Finish(c)]);
  }

  /** A call while callbacks are queued returns before anything it registers starts. */
  lemma {:induction false} CalledQueued(w: View, c: Callback)
    requires !RunsAtOnce(w.vars)
    ensures !RunsAtOnce(Called(w, c).vars)
    ensures Called(w, c).vars.stack == w.vars.stack + NonNull(c.registers)
    ensures Called(w, c).trace == w.trace + [Start(c), Finish(c)]
  {
    RegisteredAllQueued(w.(trace := w.trace + [Start(c)]), c.registers);
    assert (w.trace + [Start(c)]) + [Finish(c)] == w.trace + [Start(c), Finish(c)];
  }

  // ----- the run loop -----

  /** One turn of the run loop: take the last callback and call it. */
  function Turned(w: View): View
    requires w.vars.stack != []
  {
    Called(w.(vars := Pop(w.vars)), Last(w.vars.stack))
  }

  lemma {:induction false} WeightSplit(stack: seq<Callback>)
    requires stack != []
    ensures WeightAll(stack) == WeightAll(Init(stack)) + 1 + WeightAll(Last(stack).registers)
    ensures |Init(stack)| + |Last(stack).registers| < WeightAll(stack)
  {
    InitLast(stack);
    WeightConcat(Init(stack), [Last(stack)]);
    TailOne(Last(stack));
    WeightBounds(Init(stack));
    WeightBounds(Last(stack).registers);
  }

  /** Each turn replaces a callback by what it registered, so the loop ends, whatever is registered on the way. */
  lemma {:induction false} TurnShrinks(w: View)
    requires w.vars.stack != [] && w.vars.size != 0
    requires Last(w.vars.stack).f != 0
    ensures WeightAll(Turned(w).vars.stack) < WeightAll(w.vars.stack)
  {
    var v, c := Pop(w.vars), Last(w.vars.stack);
    WeightSplit(w.vars.stack);
    if RunsAtOnce(v) {
      CalledAtOnce(w.(vars := v), c);
    } else {
      CalledQueued(w.(vars := v), c);
      WeightConcat(v.stack, NonNull(c.registers));
      WeightBounds(c.registers);
    }
  }

  /** Each turn produces the next events of the drain. */
  lemma {:induction false} TurnKeepsTrace(w: View)
    requires w.vars.stack != [] && w.vars.size != 0
    requires Last(w.vars.stack).f != 0
    ensures Turned(w).trace + Drain(Turned(w).vars.stack) == w.trace + Drain(w.vars.stack)
  {
    var v, c := Pop(w.vars), Last(w.vars.stack);
    assert w.vars.stack == v.stack + [c];
    if RunsAtOnce(v) {
      CalledAtOnce(w.(vars := v), c);
      DrainLast(c);
      assert w.vars.stack == [c];
    } else {
      CalledQueued(w.(vars := v), c);
      DrainTurn(v.stack, c);
      assert (w.trace + [Start(c), Finish(c)]) + Drain(v.stack + NonNull(c.registers))
          == w.trace + ([Start(c), Finish(c)] + Drain(v.stack + NonNull(c.registers)));
    }
  }

  /** One turn of the run loop: take the last callback and call it. */
  lemma {:induction false} Turn(w: View)
    requires w.vars.stack != [] && w.vars.size != 0
    requires Last(w.vars.stack).f != 0
    ensures Turned(w).trace + Drain(Turned(w).vars.stack) == w.trace + Drain(w.vars.stack)
    ensures WeightAll(Turned(w).vars.stack) < WeightAll(w.vars.stack)
    ensures |Pop(w.vars).stack| + |Last(w.vars.stack).registers| < WeightAll(w.vars.stack)
  {
    TurnKeepsTrace(w);
    TurnShrinks(w);
    WeightSplit(w.vars.stack);
  }

  lemma {:induction false} QueuedAllSnoc(cs: seq<Callback>)
    requires cs != []
    ensures QueuedAll(cs) == Queued(Last(cs)) + QueuedAll(Init(cs))
  {
    InitLast(cs);
    QueuedAllConcat(Init(cs), [Last(cs)]);
    QueuedAllOne(Last(cs));
  }

  lemma {:induction false} ReverseUnfold<T>(s: seq<T>)
    requires s != []
    ensures Reverse(s) == [Last(s)] + Reverse(Init(s))
    ensures Reverse(s)[0] == Last(s) && Reverse(s)[1..] == Reverse(Init(s))
  {
  }

  /** Emptying the stack from its end is a run in the reverse order of the stack. */
  lemma {:induction false} DrainIsRun(stack: seq<Callback>)
    ensures Drain(stack) == RunEvents(Reverse(stack))
  {
    if |stack| == 1 {
      assert stack == [stack[0]] == Reverse(stack);
      DrainLast(stack[0]);
    } else if |stack| > 1 {
      var first, last := stack[0], Last(stack);
      var middle := Init(stack[1..]);
      assert Init(stack)[1..] == middle;
      ReverseUnfold(stack);
      QueuedAllSnoc(stack[1..]);
      DrainIsRun(Init(stack));
      ConcatAssoc(Queued(last), QueuedAll(middle), Immediate(first));
    }
  }

  /** What holds when an atinit run has sorted its queue. */
  lemma {:induction false} RunBegins(queue: seq<Callback>)
    ensures Drain(Sorted(queue)) == RunEvents(StableDescending(queue))
    ensures WeightAll(Sorted(queue)) == WeightAll(queue)
    ensures |queue| <= WeightAll(queue)
  {
    DrainIsRun(Sorted(queue));
    ReverseInvolutive(StableDescending(queue));
    SortedProperties(queue);
    WeightBounds(queue);
  }
}
