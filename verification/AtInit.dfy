/** The registry of mulle-atinit: callbacks with priorities, run once at startup. */
module AtInit {
  import opened Sequences
  import opened Callbacks
  import opened Capacity
  import opened PrioritySort
  import opened Mergesort
  import opened Registry
  import opened RunTrace
  import Threads

  class AtInitRegistry {
    var locked: bool
    var n: nat
    var size: nat
    var calls: array?<Callback>
    // what the last holder of the lock left in n, size and calls
    var published: Vars
    // what an observer of the callbacks has seen
    ghost var trace: seq<Event>

    /** What the holder of the lock knows of the fields. While the lock is free, nothing is known of them. */
    ghost predicate Valid()
      reads this, calls
    {
      && (calls == null ==> n == 0 && (size == 0 || size == DRAINED_SIZE))
      && (calls != null ==> n <= size == calls.Length && IsCapacity(size))
      && AllNonNull(Contents())
    }

    ghost function Contents(): seq<Callback>
      reads this, calls
    {
      if calls == null || n > calls.Length then [] else calls[..n]
    }

    ghost function State(): Vars
      reads this, calls
    {
      Vars(Contents(), size)
    }

    /** What the holder of the lock sees. */
    ghost function Inside(): View
      reads this, calls
    {
      View(State(), trace)
    }

    ghost predicate Unlocked()
      reads this
    {
      !locked && Sound(published)
    }

    /** What is known of the registry while its lock is free. */
    ghost function Now(): View
      reads this
    {
      View(published, trace)
    }

    constructor ()
      ensures Unlocked() && published == FRESH && trace == []
    {
      locked, n, size, calls := false, 0, 0, null;
      published := FRESH;
      trace := [];
    }

    /**
      Taking the lock while holding it would never return, so no caller may. It
      makes the fields what the last holder left; the code of the registry uses
      `published` in no other place.
     */
    method Lock()
      requires Unlocked()
      modifies this`locked, this`n, this`size, this`calls
      ensures locked && Valid() && State() == published
      ensures calls == null || fresh(calls)
    {
      locked := true;
      n, size, calls := |published.stack|, published.size, null;
      if size != 0 && size != DRAINED_SIZE {
        var block := new Callback[size];
        forall i | 0 <= i < n {
          block[i] := published.stack[i];
        }
        calls := block;
      }
      assert Contents() == published.stack;
    }

    /** From here on other threads may change the fields. */
    method Unlock()
      requires locked && Valid()
      modifies this`locked, this`published, this`n, this`size, this`calls
      ensures Unlocked() && published == old(State())
    {
      if calls != null {
        CapacityBounds(size);
      }
      published := Vars(if calls == null then [] else calls[..n], size);
      locked := false;
      n, size, calls := *, *, *;
    }

    /** realloc: a block of `newSize` that begins with the entries of the old one. */
    method Reallocate(newSize: nat) returns (block: array<Callback>)
      requires calls != null ==> calls.Length <= newSize
      ensures fresh(block) && block.Length == newSize
      ensures calls != null ==> block[..calls.Length] == calls[..]
    {
      block := new Callback[newSize];
      if calls != null {
        forall i | 0 <= i < calls.Length {
          block[i] := calls[i];
        }
      }
    }

    /** Pushes one callback. It takes no lock itself, and must not be called on a drained registry. */
    method AddCallback(c: Callback)
      requires Valid() && c.f != 0
      requires size != DRAINED_SIZE && n < MAX_CALLBACKS
      modifies this`n, this`size, this`calls, calls
      ensures Valid()
      ensures State() == Push(old(State()), c)
      ensures !RunsAtOnce(old(State())) ==>
        State() == Threads.FieldsAfter(AtInitKind, old(State()), Threads.Test(c))
      ensures calls == old(calls) || fresh(calls)
    {
      Threads.LockedFields(AtInitKind, State(), c);
      ghost var before := Contents();
      if n >= size {
        GrownMakesRoom(n, size);
        size := if size != 0 then (2 * size) % WORD else 32;
        var block := Reallocate(size);
        assert before == block[..n];
        calls := block;
      }
      calls[n] := c;
      n := n + 1;
      assert Contents() == before + [c];
    }

    /**
      Registers `c`, as any code may do at any time, also from inside a
      callback. A NULL function is ignored. While nothing is queued but a run
      has begun, the callback is called at once, with the lock released.
     */
    method Register(c: Callback)
      requires Unlocked() && (c.f == 0 || Accepts(published, 1))
      modifies this
      ensures Unlocked() && Now() == Registered(old(Now()), c)
      decreases c, 1
    {
      if c.f == 0 {
        return;
      }
      Lock();
      if n == 0 && size != 0 {
        Unlock();
        Call(c);
        CalledAtOnce(old(Now()), c);
        return;
      }
      if calls != null {
        CapacityBounds(size);
      }
      AddCallback(c);
      Unlock();
    }

    /** The registrations that the code of a callback makes, in order. */
    method RegisterAll(cs: seq<Callback>)
      requires Unlocked() && Accepts(published, |cs|)
      modifies this
      ensures Unlocked() && Now() == RegisteredAll(old(Now()), cs)
      decreases cs, 0
    {
      ghost var before := Now();
      RegisteredFirstEnds(before, cs);
      var k := 0;
      while k < |cs|
        invariant 0 <= k <= |cs|
        invariant Unlocked() && Now() == RegisteredFirst(before, cs, k)
      {
        RegisteredFirstNext(before, cs, k);
        Register(cs[k]);
        k := k + 1;
      }
    }

    /** Calling the code of `c`: it makes its registrations in order and returns. */
    method Call(c: Callback)
      requires Unlocked() && c.f != 0 && Accepts(published, |c.registers|)
      modifies this
      ensures Unlocked() && Now() == Called(old(Now()), c)
      decreases c, 0
    {
      trace := trace + [Start(c)];
      RegisterAll(c.registers);
      trace := trace + [Finish(c)];
    }

    /** The locked section at `loop`: takes the last callback, or drains the registry when there is none. */
    method TakeLast() returns (taken: Callback)
      requires Valid() && locked
      modifies this`n, this`size, this`calls
      ensures Valid()
      ensures old(Contents()) != [] ==> taken == Last(old(Contents())) && State() == Pop(old(State()))
      ensures old(Contents()) == [] ==> taken.f == 0 && State() == DRAINED && calls == null
      ensures State() == Threads.FieldsAfter(AtInitKind, old(State()), Threads.Loop)
    {
      Threads.LockedFields(AtInitKind, State(), NOTHING);
      taken := NOTHING;
      if n != 0 {
        n := n - 1;
        taken := calls[n];
        assert taken in old(Contents());
      }
      if taken.f == 0 {
        calls := null;
        size := DRAINED_SIZE;
        n := 0;
      }
    }

    /** The locked section that begins a run: what is queued is sorted in place. */
    method SortQueued()
      requires Valid() && locked && |Contents()| < MAX_CALLBACKS
      modifies calls
      ensures Valid()
      ensures State() == Vars(Sorted(old(Contents())), size)
      ensures State() == Threads.FieldsAfter(AtInitKind, old(State()), Threads.Sort)
    {
      PreparedProperties(AtInitKind, Contents());
      Threads.LockedFields(AtInitKind, State(), NOTHING);
      assert calls == null ==> Sorted([]) == [];
      ghost var comparisons := PrioritizedCallbackMergesort(calls, n);
    }

    /** One turn from the label `loop`: takes the last callback and calls it with the lock released, or drains. */
    method TakeAndCall() returns (again: bool)
      requires Valid() && locked
      requires WeightAll(Contents()) < MAX_CALLBACKS
      modifies this
      ensures again == (old(Contents()) != [])
      ensures again ==>
        && locked && Valid() && (calls == null || fresh(calls))
        && Inside() == Turned(old(Inside())) && Last(old(Contents())).f != 0 && old(size) != 0
      ensures !again ==> Unlocked() && Now() == View(DRAINED, old(trace))
    {
      if n != 0 {
        WeightSplit(Contents());
      }
      var taken := TakeLast();
      Unlock();
      again := taken.f != 0;
      if again {
        Call(taken);
        Lock();
      }
    }

    /** From the label `loop` on: takes and calls callbacks until nothing is left. */
    method LoopUntilDrained()
      requires Valid() && locked
      requires WeightAll(Contents()) < MAX_CALLBACKS
      modifies this
      ensures Unlocked() && Now() == View(DRAINED, old(trace) + Drain(old(Contents())))
    {
      ghost var goal := trace + Drain(Contents());
      ghost var before := Inside();
      var running := true;
      while running
        invariant running ==> locked && Valid() && before == Inside()
        invariant running ==> WeightAll(before.vars.stack) < MAX_CALLBACKS
        invariant running ==> before.trace + Drain(before.vars.stack) == goal
        invariant !running ==> Unlocked() && Now() == View(DRAINED, goal)
        decreases if running then 1 + WeightAll(before.vars.stack) else 0
      {
        running := TakeAndCall();
        if running {
          Turn(before);
          before := Inside();
        } else {
          EmptyConcat(trace);
        }
      }
    }

    /**
      The run: sorts what is queued, then takes callbacks from the end until
      nothing is left, calling each with the lock released. What is left is the
      mark of a finished run.
     */
    method RunCallbacks()
      requires Unlocked() && WeightAll(published.stack) < MAX_CALLBACKS
      modifies this
      ensures Unlocked() && published == DRAINED
      ensures trace == old(trace) + RunEvents(StableDescending(old(published.stack)))
    {
      RunBegins(published.stack);
      Lock();
      SortQueued();
      LoopUntilDrained();
    }
  }
}
