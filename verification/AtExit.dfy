/**
  The registry of mulle-atexit. It queues bare functions, so of a callback only
  `f` and `registers` matter here; userinfo, priority and comment play no part.
 */
module AtExit {
  import opened Sequences
  import opened Callbacks
  import opened Capacity
  import opened Registry
  import opened RunTrace
  import Threads

  class AtExitRegistry {
    var locked: bool
    var n: nat
    var size: nat
    var fs: array?<Callback>
    // what the last holder of the lock left in n, size and fs
    var published: Vars
    // what an observer of the callbacks has seen
    ghost var trace: seq<Event>

    /** What the holder of the lock knows of the fields. While the lock is free, nothing is known of them. */
    ghost predicate Valid()
      reads this, fs
    {
      && (fs == null ==> n == 0 && (size == 0 || size == DRAINED_SIZE))
      && (fs != null ==> n <= size == fs.Length && IsCapacity(size))
      && AllNonNull(Contents())
    }

    ghost function Contents(): seq<Callback>
      reads this, fs
    {
      if fs == null || n > fs.Length then [] else fs[..n]
    }

    ghost function State(): Vars
      reads this, fs
    {
      Vars(Contents(), size)
    }

    /** What the holder of the lock sees. */
    ghost function Inside(): View
      reads this, fs
    {
      View(State(), trace)
    }

    ghost predicate Unlocked()
      reads this
    {
      !locked && Sound(published)
    }

    /** What is known of the registry while its lock is free. */
    ghost function Now(): View
      reads this
    {
      View(published, trace)
    }

    constructor ()
      ensures Unlocked() && published == FRESH && trace == []
    {
      locked, n, size, fs := false, 0, 0, null;
      published := FRESH;
      trace := [];
    }

    /**
      Taking the lock while holding it would never return, so no caller may. It
      makes the fields what the last holder left; the code of the registry uses
      `published` in no other place.
     */
    method Lock()
      requires Unlocked()
      modifies this`locked, this`n, this`size, this`fs
      ensures locked && Valid() && State() == published
      ensures fs == null || fresh(fs)
    {
      locked := true;
      n, size, fs := |published.stack|, published.size, null;
      if size != 0 && size != DRAINED_SIZE {
        var block := new Callback[size];
        forall i | 0 <= i < n {
          block[i] := published.stack[i];
        }
        fs := block;
      }
      assert Contents() == published.stack;
    }

    /** From here on other threads may change the fields. */
    method Unlock()
      requires locked && Valid()
      modifies this`locked, this`published, this`n, this`size, this`fs
      ensures Unlocked() && published == old(State())
    {
      if fs != null {
        CapacityBounds(size);
      }
      published := Vars(if fs == null then [] else fs[..n], size);
      locked := false;
      n, size, fs := *, *, *;
    }

    /** realloc: a block of `newSize` that begins with the entries of the old one. */
    method Reallocate(newSize: nat) returns (block: array<Callback>)
      requires fs != null ==> fs.Length <= newSize
      ensures fresh(block) && block.Length == newSize
      ensures fs != null ==> block[..fs.Length] == fs[..]
    {
      block := new Callback[newSize];
      if fs != null {
        forall i | 0 <= i < fs.Length {
          block[i] := fs[i];
        }
      }
    }

    /** The end of the locked section of a registration. */
    method Queue(c: Callback)
      requires locked && Valid() && c.f != 0
      requires !RunsAtOnce(State()) && n < MAX_CALLBACKS
      modifies this`n, this`size, this`fs, fs
      ensures Valid()
      ensures State() == Push(old(State()), c) == Threads.FieldsAfter(AtExitKind, old(State()), Threads.Test(c))
      ensures fs == old(fs) || fresh(fs)
    {
      Threads.LockedFields(AtExitKind, State(), c);
      ghost var before := Contents();
      if n >= size {
        GrownMakesRoom(n, size);
        size := if size != 0 then (2 * size) % WORD else 32;
        var block := Reallocate(size);
        assert before == block[..n];
        fs := block;
      }
      fs[n] := c;
      n := n + 1;
      assert Contents() == before + [c];
    }

    /**
      Registers `c`, as any code may do at any time, also from inside a
      callback. A NULL function is ignored. While nothing is queued but a run
      has begun, the callback is called at once, with the lock released.
     */
    method Register(c: Callback) returns (status: int)
      requires Unlocked() && (c.f == 0 || Accepts(published, 1))
      modifies this
      ensures Unlocked() && Now() == Registered(old(Now()), c)
      ensures status == 0
      decreases c, 1
    {
      if c.f == 0 {
        return 0;
      }
      Lock();
      if n == 0 && size != 0 {
        Unlock();
        Call(c);
        CalledAtOnce(old(Now()), c);
        return 0;
      }
      Queue(c);
      Unlock();
      return 0;
    }

    /** The registrations that the code of a callback makes, in order. */
    method RegisterAll(cs: seq<Callback>)
      requires Unlocked() && Accepts(published, |cs|)
      modifies this
      ensures Unlocked() && Now() == RegisteredAll(old(Now()), cs)
      decreases cs, 0
    {
      ghost var before := Now();
      RegisteredFirstEnds(before, cs);
      var k := 0;
      while k < |cs|
        invariant 0 <= k <= |cs|
        invariant Unlocked() && Now() == RegisteredFirst(before, cs, k)
      {
        RegisteredFirstNext(before, cs, k);
        var status := Register(cs[k]);
        k := k + 1;
      }
    }

    /** Calling the code of `c`: it makes its registrations in order and returns. */
    method Call(c: Callback)
      requires Unlocked() && c.f != 0 && Accepts(published, |c.registers|)
      modifies this
      ensures Unlocked() && Now() == Called(old(Now()), c)
      decreases c, 0
    {
      trace := trace + [Start(c)];
      RegisterAll(c.registers);
      trace := trace + [Finish(c)];
    }

    /** The locked section at `loop`: takes the last callback, or drains the registry when there is none. */
    method TakeLast() returns (taken: Callback)
      requires Valid() && locked
      modifies this`n, this`size, this`fs
      ensures Valid()
      ensures old(Contents()) != [] ==> taken == Last(old(Contents())) && State() == Pop(old(State()))
      ensures old(Contents()) == [] ==> taken.f == 0 && State() == DRAINED && fs == null
      ensures State() == Threads.FieldsAfter(AtExitKind, old(State()), Threads.Loop)
    {
      Threads.LockedFields(AtExitKind, State(), NOTHING);
      taken := NOTHING;
      if n != 0 {
        n := n - 1;
        taken := fs[n];
        assert taken in old(Contents());
      }
      if taken.f == 0 {
        fs := null;
        size := DRAINED_SIZE;
        n := 0;
      }
    }

    /** The begin of a run: it takes the lock, and unlike mulle-atinit leaves what is queued as it is. */
    method BeginRun()
      requires Unlocked()
      modifies this`locked, this`n, this`size, this`fs
      ensures locked && Valid() && (fs == null || fresh(fs))
      ensures State() == published == Threads.FieldsAfter(AtExitKind, published, Threads.Sort)
    {
      Lock();
      Threads.LockedFields(AtExitKind, published, NOTHING);
    }

    /** One turn from the label `loop`: takes the last callback and calls it with the lock released, or drains. */
    method TakeAndCall() returns (again: bool)
      requires Valid() && locked
      requires WeightAll(Contents()) < MAX_CALLBACKS
      modifies this
      ensures again == (old(Contents()) != [])
      ensures again ==>
        && locked && Valid() && (fs == null || fresh(fs))
        && Inside() == Turned(old(Inside())) && Last(old(Contents())).f != 0 && old(size) != 0
      ensures !again ==> Unlocked() && Now() == View(DRAINED, old(trace))
    {
      if n != 0 {
        WeightSplit(Contents());
      }
      var taken := TakeLast();
      Unlock();
      again := taken.f != 0;
      if again {
        Call(taken);
        Lock();
      }
    }

    /** From the label `loop` on: takes and calls callbacks until nothing is left. */
    method LoopUntilDrained()
      requires Valid() && locked
      requires WeightAll(Contents()) < MAX_CALLBACKS
      modifies this
      ensures Unlocked() && Now() == View(DRAINED, old(trace) + Drain(old(Contents())))
    {
      ghost var goal := trace + Drain(Contents());
      ghost var before := Inside();
      var running := true;
      while running
        invariant running ==> locked && Valid() && before == Inside()
        invariant running ==> WeightAll(before.vars.stack) < MAX_CALLBACKS
        invariant running ==> before.trace + Drain(before.vars.stack) == goal
        invariant !running ==> Unlocked() && Now() == View(DRAINED, goal)
        decreases if running then 1 + WeightAll(before.vars.stack) else 0
      {
        running := TakeAndCall();
        if running {
          Turn(before);
          before := Inside();
        } else {
          EmptyConcat(trace);
        }
      }
    }

    /**
      The run: takes callbacks from the end until nothing is left, calling each
      with the lock released. What is left is the mark of a finished run.
     */
    method RunExitCallbacks()
      requires Unlocked() && WeightAll(published.stack) < MAX_CALLBACKS
      modifies this
      ensures Unlocked() && published == DRAINED
      ensures trace == old(trace) + RunEvents(Reverse(old(published.stack)))
    {
      DrainIsRun(published.stack);
      BeginRun();
      LoopUntilDrained();
    }

    /** The destructor. */
    method Unload()
      requires Unlocked() && WeightAll(published.stack) < MAX_CALLBACKS
      modifies this
      ensures Unlocked() && published == DRAINED
      ensures trace == old(trace) + RunEvents(Reverse(old(published.stack)))
    {
      var status := Register(NOTHING);
      RunExitCallbacks();
    }
  }
}
