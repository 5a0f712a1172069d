/**
  The order of late registrations in mulle-atexit, whose registrations are bare
  functions: it has neither userinfo, priority nor comment, so callbacks that
  differ only in these are one and the same to an observer.
 */
module AtExitOrder {
  import opened Sequences
  import opened Callbacks
  import opened RunTrace
  import opened RunProperties

  /** What mulle-atexit knows of a callback. */
  function Bare(c: Callback): Callback
    decreases c
  {
    Callback(c.f, 0, 0, "", BareAll(c.registers))
  }

  function BareAll(cs: seq<Callback>): seq<Callback>
    decreases cs
  {
    if cs == [] then [] else [Bare(cs[0])] + BareAll(cs[1..])
  }

  lemma {:induction false} BareAllAt(cs: seq<Callback>)
    ensures |BareAll(cs)| == |cs|
    ensures forall i :: 0 <= i < |cs| ==> BareAll(cs)[i] == Bare(cs[i])
  {
    if cs != [] {
      BareAllAt(cs[1..]);
      forall i | 0 <= i < |cs|
        ensures BareAll(cs)[i] == Bare(cs[i])
      {
        if i > 0 {
          assert BareAll(cs)[i] == BareAll(cs[1..])[i - 1];
        }
      }
    }
  }

  lemma {:induction false} BareAllConcat(a: seq<Callback>, b: seq<Callback>)
    ensures BareAll(a + b) == BareAll(a) + BareAll(b)
  {
    if a == [] {
      EmptyConcat(b);
      EmptyConcat(BareAll(b));
    } else {
      ConcatTail(a, b);
      BareAllConcat(a[1..], b);
      ConcatAssoc([Bare(a[0])], BareAll(a[1..]), BareAll(b));
    }
  }

  lemma {:induction false} BareAllPrepend(c: Callback, cs: seq<Callback>)
    ensures BareAll([c] + cs) == [Bare(c)] + BareAll(cs)
  {
    ConcatTail([c], cs);
    TailOne(c);
    EmptyConcat(cs);
  }

  /**
    What mulle-atexit can tell apart: two callbacks are one to it exactly when
    their functions are the same and they register as many, one to it each.
   */
  lemma {:induction false} BareIff(x: Callback, y: Callback)
    ensures Bare(x) == Bare(y) <==>
      && x.f == y.f
      && |x.registers| == |y.registers|
      && forall i :: 0 <= i < |x.registers| ==> Bare(x.registers[i]) == Bare(y.registers[i])
  {
    BareAllAt(x.registers);
    BareAllAt(y.registers);
    if && |x.registers| == |y.registers|
       && forall i :: 0 <= i < |x.registers| ==> Bare(x.registers[i]) == Bare(y.registers[i]) {
      assert BareAll(x.registers) == BareAll(y.registers);
    }
    if BareAll(x.registers) == BareAll(y.registers) {
      forall i | 0 <= i < |x.registers|
        ensures Bare(x.registers[i]) == Bare(y.registers[i])
      {
        assert BareAll(x.registers)[i] == BareAll(y.registers)[i];
      }
    }
  }

  // ----- a run of bare callbacks is the run, seen bare -----

  lemma {:induction false} ImmediateBare(c: Callback)
    ensures Starts(Immediate(Bare(c))) == BareAll(Starts(Immediate(c)))
    decreases c
  {
    if c.f != 0 {
      StartsOfImmediate(c);
      StartsOfImmediate(Bare(c));
      ImmediateAllBare(c.registers);
      BareAllPrepend(c, Starts(ImmediateAll(c.registers)));
    }
  }

  lemma {:induction false} ImmediateAllBare(cs: seq<Callback>)
    ensures Starts(ImmediateAll(BareAll(cs))) == BareAll(Starts(ImmediateAll(cs)))
    decreases cs
  {
    if cs != [] {
      ImmediateBare(cs[0]);
      ImmediateAllBare(cs[1..]);
      BareHead(cs);
      StartsConcat(Immediate(cs[0]), ImmediateAll(cs[1..]));
      StartsConcat(Immediate(Bare(cs[0])), ImmediateAll(BareAll(cs[1..])));
      BareAllConcat(Starts(Immediate(cs[0])), Starts(ImmediateAll(cs[1..])));
    }
  }

  lemma {:induction false} QueuedBare(c: Callback)
    ensures Starts(Queued(Bare(c))) == BareAll(Starts(Queued(c)))
    decreases c
  {
    if c.f != 0 {
      StartsOfQueued(c);
      StartsOfQueued(Bare(c));
      QueuedAllBare(c.registers);
      BareAllPrepend(c, Starts(QueuedAll(c.registers)));
    }
  }

  lemma {:induction false} QueuedAllBare(cs: seq<Callback>)
    ensures Starts(QueuedAll(BareAll(cs))) == BareAll(Starts(QueuedAll(cs)))
    decreases cs
  {
    if cs != [] {
      QueuedBare(cs[0]);
      QueuedAllBare(cs[1..]);
      BareHead(cs);
      StartsConcat(QueuedAll(cs[1..]), Queued(cs[0]));
      StartsConcat(QueuedAll(BareAll(cs[1..])), Queued(Bare(cs[0])));
      BareAllConcat(Starts(QueuedAll(cs[1..])), Starts(Queued(cs[0])));
    }
  }

  lemma {:induction false} BareHead(cs: seq<Callback>)
    requires cs != []
    ensures BareAll(cs) != [] && BareAll(cs)[0] == Bare(cs[0]) && BareAll(cs)[1..] == BareAll(cs[1..])
  {
    ConcatTail([Bare(cs[0])], BareAll(cs[1..]));
    TailOne(Bare(cs[0]));
    EmptyConcat(BareAll(cs[1..]));
  }

  lemma {:induction false} LoopOnlyBare(order: seq<Callback>)
    ensures Starts(LoopOnlyEvents(BareAll(order))) == BareAll(Starts(LoopOnlyEvents(order)))
  {
    if order != [] {
      QueuedBare(order[0]);
      LoopOnlyBare(order[1..]);
      BareHead(order);
      StartsConcat(Queued(order[0]), LoopOnlyEvents(order[1..]));
      StartsConcat(Queued(Bare(order[0])), LoopOnlyEvents(BareAll(order[1..])));
      BareAllConcat(Starts(Queued(order[0])), Starts(LoopOnlyEvents(order[1..])));
    }
  }

  lemma {:induction false} RunBare(order: seq<Callback>)
    ensures Starts(RunEvents(BareAll(order))) == BareAll(Starts(RunEvents(order)))
  {
    BareAllAt(order);
    if |order| == 1 {
      ImmediateBare(order[0]);
    } else if |order| > 1 {
      QueuedBare(order[0]);
      RunBare(order[1..]);
      BareHead(order);
      StartsConcat(Queued(order[0]), RunEvents(order[1..]));
      StartsConcat(Queued(Bare(order[0])), RunEvents(BareAll(order[1..])));
      BareAllConcat(Starts(Queued(order[0])), Starts(RunEvents(order[1..])));
    }
  }

  /**
    For an observer who cannot tell bare callbacks apart, last registered is
    first started through the whole run exactly when the last callback taken is
    symmetric as a bare one.
   */
  lemma {:induction false} ExitStartsAreLifoIff(order: seq<Callback>)
    requires AllNonNull(order) && order != []
    ensures BareAll(Starts(RunEvents(order))) == BareAll(Starts(LoopOnlyEvents(order)))
        <==> Symmetric(Bare(Last(order)))
  {
    RunBare(order);
    LoopOnlyBare(order);
    BareAllAt(order);
    forall c | c in BareAll(order)
      ensures c.f != 0
    {
      var i :| 0 <= i < |order| && BareAll(order)[i] == c;
      assert order[i] in order;
    }
    LateStartsAreLifoIff(BareAll(order));
  }

  function Functions(cs: seq<Callback>): seq<nat>
  {
    seq(|cs|, i requires 0 <= i < |cs| => cs[i].f)
  }

  /**
    One callback that registers two functions: these start in the order of their
    registration, where last-registered first is the other order; and the two
    orders can be told apart if the two functions can.
   */
  lemma {:induction false} ExitLifoFails(c: Callback, a: Callback, b: Callback)
    requires c.f != 0 && a.f != 0 && b.f != 0 && c.registers == [a, b] && a.registers == b.registers == []
    ensures Functions(Starts(RunEvents([c]))) == [c.f, a.f, b.f]
    ensures Functions(Starts(LoopOnlyEvents([c]))) == [c.f, b.f, a.f]
    ensures a.f != b.f ==> BareAll(Starts(RunEvents([c]))) != BareAll(Starts(LoopOnlyEvents([c])))
  {
    LifoFails(a, b, c);
    BareAllAt([c, a, b]);
    BareAllAt([c, b, a]);
    BareIff(a, b);
  }
}
