/**
  What the closed form of a run implies, as long as one thread alone uses the
  registry, and where it departs from the documented behaviour: registrations
  made by the last queued callback are not taken by the run loop but run inside
  the registering call.
 */
module RunProperties {
  import opened Sequences
  import opened Callbacks
  import opened RunTrace

  /** The callbacks that start, in order. */
  function Starts(es: seq<Event>): seq<Callback>
  {
    if es == [] then [] else (if es[0].Start? then [es[0].c] else []) + Starts(es[1..])
  }

  /** The callbacks that finish, in order. */
  function Finishes(es: seq<Event>): seq<Callback>
  {
    if es == [] then [] else (if es[0].Finish? then [es[0].c] else []) + Finishes(es[1..])
  }

  lemma {:induction false} StartsConcat(a: seq<Event>, b: seq<Event>)
    ensures Starts(a + b) == Starts(a) + Starts(b)
    ensures Finishes(a + b) == Finishes(a) + Finishes(b)
  {
    if a == [] {
      EmptyConcat(b);
      EmptyConcat(Starts(b));
      EmptyConcat(Finishes(b));
    } else {
      ConcatTail(a, b);
      StartsConcat(a[1..], b);
      ConcatAssoc(if a[0].Start? then [a[0].c] else [], Starts(a[1..]), Starts(b));
      ConcatAssoc(if a[0].Finish? then [a[0].c] else [], Finishes(a[1..]), Finishes(b));
    }
  }

  lemma {:induction false} StartsOfOne(c: Callback)
    ensures Starts([Start(c)]) == [c] && Finishes([Start(c)]) == []
    ensures Starts([Finish(c)]) == [] && Finishes([Finish(c)]) == [c]
    ensures Starts([Start(c), Finish(c)]) == [c] == Finishes([Start(c), Finish(c)])
  {
    assert [Start(c), Finish(c)] == [Start(c)] + [Finish(c)];
    assert [Start(c)][1..] == [] && [Finish(c)][1..] == [];
    StartsConcat([Start(c)], [Finish(c)]);
  }

  lemma {:induction false} StartsOfImmediate(c: Callback)
    requires c.f != 0
    ensures Starts(Immediate(c)) == [c] + Starts(ImmediateAll(c.registers))
    ensures Finishes(Immediate(c)) == Finishes(ImmediateAll(c.registers)) + [c]
  {
    var inner := ImmediateAll(c.registers);
    StartsOfOne(c);
    StartsConcat([Start(c)], inner);
    StartsConcat([Start(c)] + inner, [Finish(c)]);
    assert Immediate(c) == ([Start(c)] + inner) + [Finish(c)];
  }

  lemma {:induction false} StartsOfQueued(c: Callback)
    requires c.f != 0
    ensures Starts(Queued(c)) == [c] + Starts(QueuedAll(c.registers))
    ensures Finishes(Queued(c)) == [c] + Finishes(QueuedAll(c.registers))
  {
    StartsOfOne(c);
    StartsConcat([Start(c), Finish(c)], QueuedAll(c.registers));
    assert Queued(c) == [Start(c), Finish(c)] + QueuedAll(c.registers);
  }

  // ----- every callback starts and finishes exactly once -----

  lemma {:induction false} ImmediateOnce(c: Callback)
    ensures multiset(Starts(Immediate(c))) == Nodes(c) == multiset(Finishes(Immediate(c)))
    decreases c
  {
    if c.f != 0 {
      StartsOfImmediate(c);
      ImmediateAllOnce(c.registers);
    }
  }

  lemma {:induction false} ImmediateAllOnce(cs: seq<Callback>)
    ensures multiset(Starts(ImmediateAll(cs))) == NodesAll(cs) == multiset(Finishes(ImmediateAll(cs)))
    decreases cs
  {
    if cs != [] {
      StartsConcat(Immediate(cs[0]), ImmediateAll(cs[1..]));
      ImmediateOnce(cs[0]);
      ImmediateAllOnce(cs[1..]);
    }
  }

  lemma {:induction false} QueuedOnce(c: Callback)
    ensures multiset(Starts(Queued(c))) == Nodes(c) == multiset(Finishes(Queued(c)))
    decreases c
  {
    if c.f != 0 {
      StartsOfQueued(c);
      QueuedAllOnce(c.registers);
    }
  }

  lemma {:induction false} QueuedAllOnce(cs: seq<Callback>)
    ensures multiset(Starts(QueuedAll(cs))) == NodesAll(cs) == multiset(Finishes(QueuedAll(cs)))
    decreases cs
  {
    if cs != [] {
      StartsConcat(QueuedAll(cs[1..]), Queued(cs[0]));
      QueuedOnce(cs[0]);
      QueuedAllOnce(cs[1..]);
    }
  }

  /**
    In a run every queued callback, and everything registered on the way,
    starts exactly once and finishes exactly once.
   */
  lemma {:induction false} RunOnce(order: seq<Callback>)
    ensures multiset(Starts(RunEvents(order))) == NodesAll(order) == multiset(Finishes(RunEvents(order)))
  {
    if |order| == 1 {
      ImmediateOnce(order[0]);
      assert order[1..] == [];
    } else if |order| > 1 {
      StartsConcat(Queued(order[0]), RunEvents(order[1..]));
      QueuedOnce(order[0]);
      RunOnce(order[1..]);
    }
  }

  // ----- runs without registrations on the way -----

  /** Callbacks that register nothing run one after the other, in the run's order. */
  lemma {:induction false} PlainRun(order: seq<Callback>)
    requires AllNonNull(order)
    requires forall c :: c in order ==> NonNull(c.registers) == []
    ensures Starts(RunEvents(order)) == order == Finishes(RunEvents(order))
  {
    if order != [] {
      var c := order[0];
      PlainCallback(c);
      StartsOfOne(c);
      if |order| > 1 {
        PlainRun(order[1..]);
        StartsConcat(Queued(c), RunEvents(order[1..]));
        assert order == [c] + order[1..];
      } else {
        assert order == [c];
      }
    }
  }

  lemma {:induction false} PlainCallback(c: Callback)
    requires c.f != 0 && NonNull(c.registers) == []
    ensures Queued(c) == [Start(c), Finish(c)] == Immediate(c)
  {
    QueuedAllNonNull(c.registers);
    ImmediateAllNonNull(c.registers);
    assert [Start(c)] + [] + [Finish(c)] == [Start(c), Finish(c)];
    assert [Start(c), Finish(c)] + [] == [Start(c), Finish(c)];
  }

  lemma {:induction false} ImmediateAllNonNull(cs: seq<Callback>)
    ensures ImmediateAll(NonNull(cs)) == ImmediateAll(cs)
  {
    if cs != [] {
      var h := if cs[0].f == 0 then [] else [cs[0]];
      ImmediateAllNonNull(cs[1..]);
      ImmediateAllConcat(h, NonNull(cs[1..]));
      if h != [] {
        ImmediateAllOne(cs[0]);
      }
    }
  }

  // ----- late registrations and the run loop -----

  /**
    The documented run: whatever is registered while callbacks run is appended
    and taken by the run loop, after the registering callback has returned.
   */
  function LoopOnlyEvents(order: seq<Callback>): seq<Event>
  {
    if order == [] then [] else Queued(order[0]) + LoopOnlyEvents(order[1..])
  }

  /** A run is the documented one except for its last callback, which contains what it registers. */
  lemma {:induction false} RunSplits(order: seq<Callback>)
    requires order != []
    ensures RunEvents(order) == LoopOnlyEvents(Init(order)) + Immediate(Last(order))
    ensures LoopOnlyEvents(order) == LoopOnlyEvents(Init(order)) + Queued(Last(order))
  {
    if |order| == 1 {
      assert order[1..] == [] && Init(order) == [];
      assert LoopOnlyEvents(order) == Queued(order[0]) + [];
      assert RunEvents(order) == Immediate(order[0]);
    } else {
      RunSplits(order[1..]);
      assert Init(order)[1..] == Init(order[1..]);
      ConcatAssoc(Queued(order[0]), LoopOnlyEvents(Init(order[1..])), Immediate(Last(order)));
      ConcatAssoc(Queued(order[0]), LoopOnlyEvents(Init(order[1..])), Queued(Last(order)));
    }
  }

  lemma {:induction false} ImmediateBegins(c: Callback)
    requires c.f != 0 && NonNull(c.registers) != []
    ensures Immediate(c) != Queued(c)
  {
    var k := NonNull(c.registers)[0];
    var rest := ImmediateAll(NonNull(c.registers)[1..]);
    NonNullIdentity(c.registers);
    ImmediateAllNonNull(c.registers);
    assert ImmediateAll(c.registers) == Immediate(k) + rest;
    assert Immediate(k)[0] == Start(k);
    assert Immediate(c)[1] == Start(k);
    assert Queued(c)[1] == Finish(c);
  }

  lemma {:induction false} CancelFront<T>(a: seq<T>, b: seq<T>, c: seq<T>)
    requires a + b == a + c
    ensures b == c
  {
    assert b == (a + b)[|a|..];
    assert c == (a + c)[|a|..];
  }

  /** With a single thread, the run is the documented one exactly when its last callback registers nothing. */
  lemma {:induction false} LoopRunsEverythingIff(order: seq<Callback>)
    requires AllNonNull(order) && order != []
    ensures RunEvents(order) == LoopOnlyEvents(order) <==> NonNull(Last(order).registers) == []
  {
    var c := Last(order);
    RunSplits(order);
    if NonNull(c.registers) == [] {
      PlainCallback(c);
    } else {
      ImmediateBegins(c);
      if RunEvents(order) == LoopOnlyEvents(order) {
        CancelFront(LoopOnlyEvents(Init(order)), Immediate(c), Queued(c));
      }
    }
  }

  // ----- last registered, first started -----

  /** A callback whose registrations read the same in both directions, all the way down. */
  predicate Symmetric(c: Callback)
    decreases c
  {
    && NonNull(c.registers) == Reverse(NonNull(c.registers))
    && forall k :: k in c.registers && k.f != 0 ==> Symmetric(k)
  }

  lemma {:induction false} LoopOnlyIsQueued(order: seq<Callback>)
    ensures LoopOnlyEvents(Reverse(order)) == QueuedAll(order)
  {
    if order != [] {
      ReverseUnfold(order);
      LoopOnlyIsQueued(Init(order));
      QueuedAllSnoc(order);
    }
  }

  lemma {:induction false} NonNullMembers(cs: seq<Callback>, k: Callback)
    ensures k in NonNull(cs) <==> k in cs && k.f != 0
  {
    if cs != [] {
      NonNullMembers(cs[1..], k);
      HeadTail(cs);
    }
  }

  lemma {:induction false} SplitEqual<T>(a: seq<T>, b: seq<T>, c: seq<T>, d: seq<T>)
    requires |a| == |c|
    ensures a + b == c + d <==> a == c && b == d
  {
    if a + b == c + d {
      assert a == (a + b)[..|a|] && c == (c + d)[..|c|];
      assert b == (a + b)[|a|..] && d == (c + d)[|c|..];
    }
  }

  lemma {:induction false} SameLength(c: Callback)
    ensures |Starts(Immediate(c))| == |Starts(Queued(c))|
  {
    ImmediateOnce(c);
    QueuedOnce(c);
    assert |multiset(Starts(Immediate(c)))| == |multiset(Starts(Queued(c)))|;
  }

  /** Nested and looped starts agree for one callback exactly when it is symmetric. */
  lemma {:induction false} SymmetricIff(c: Callback)
    requires c.f != 0
    ensures Starts(Immediate(c)) == Starts(Queued(c)) <==> Symmetric(c)
    decreases Weight(c), 0
  {
    var kids := NonNull(c.registers);
    StartsOfImmediate(c);
    StartsOfQueued(c);
    SplitEqual([c], Starts(ImmediateAll(c.registers)), [c], Starts(QueuedAll(c.registers)));
    ImmediateAllNonNull(c.registers);
    QueuedAllNonNull(c.registers);
    ReverseInvolutive(kids);
    LoopOnlyIsQueued(kids);
    NonNullIdentity(c.registers);
    WeightBounds(c.registers);
    StartsAgreeIff(kids, Reverse(kids));
    forall k
      ensures k in kids <==> k in c.registers && k.f != 0
    {
      NonNullMembers(c.registers, k);
    }
  }

  lemma {:induction false} StartsAgreeIff(nested: seq<Callback>, looped: seq<Callback>)
    requires AllNonNull(nested) && AllNonNull(looped)
    ensures Starts(ImmediateAll(nested)) == Starts(LoopOnlyEvents(looped))
        <==> nested == looped && forall k :: k in nested ==> Symmetric(k)
    decreases WeightAll(nested), 1
  {
    if nested != [] {
      StartsConcat(Immediate(nested[0]), ImmediateAll(nested[1..]));
      StartsOfImmediate(nested[0]);
      assert Starts(ImmediateAll(nested))[0] == nested[0];
    }
    if looped != [] {
      StartsConcat(Queued(looped[0]), LoopOnlyEvents(looped[1..]));
      StartsOfQueued(looped[0]);
      assert Starts(LoopOnlyEvents(looped))[0] == looped[0];
    }
    if nested != [] && looped != [] && nested[0] == looped[0] {
      var c := nested[0];
      SameLength(c);
      SplitEqual(Starts(Immediate(c)), Starts(ImmediateAll(nested[1..])),
                 Starts(Queued(c)), Starts(LoopOnlyEvents(looped[1..])));
      SymmetricIff(c);
      StartsAgreeIff(nested[1..], looped[1..]);
      assert nested == [c] + nested[1..] && looped == [c] + looped[1..];
    }
  }

  /**
    Last registered is first started for late registrations too, through the
    whole run, exactly when the last callback taken is symmetric; for distinct
    registrations that means that it registers at most one, which registers at
    most one, and so on. Callbacks are told apart by all of their registration.
   */
  lemma {:induction false} LateStartsAreLifoIff(order: seq<Callback>)
    requires AllNonNull(order) && order != []
    ensures Starts(RunEvents(order)) == Starts(LoopOnlyEvents(order)) <==> Symmetric(Last(order))
  {
    var c := Last(order);
    var front := LoopOnlyEvents(Init(order));
    RunSplits(order);
    StartsConcat(front, Immediate(c));
    StartsConcat(front, Queued(c));
    SplitEqual(Starts(front), Starts(Immediate(c)), Starts(front), Starts(Queued(c)));
    SymmetricIff(c);
  }

  /** One callback that registers two others: they start in registration order, not last-registered first. */
  lemma {:induction false} LifoFails(a: Callback, b: Callback, c: Callback)
    requires a.f != 0 && b.f != 0 && a.registers == b.registers == []
    requires c.f != 0 && c.registers == [a, b]
    ensures Starts(RunEvents([c])) == [c, a, b]
    ensures Starts(LoopOnlyEvents([c])) == [c, b, a]
  {
    PlainCallback(a);
    PlainCallback(b);
    StartsOfOne(a);
    StartsOfOne(b);
    StartsOfImmediate(c);
    StartsOfQueued(c);
    ImmediateAllOne(b);
    QueuedAllOne(b);
    assert [a, b][1..] == [b];
    StartsConcat(Immediate(a), Immediate(b));
    StartsConcat(Queued(b), Queued(a));
    TailOne(c);
    assert Queued(c) + [] == Queued(c);
  }
}
