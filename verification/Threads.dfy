/**
  A registry under any number of threads, as a state machine. Every thread is a
  stack of frames; a step is what its top frame does between two points where
  another thread may come in: taking the lock, one locked action, releasing the
  lock, or calling a callback. A schedule names the thread that steps next.
 */
module Threads {
  import opened Sequences
  import opened Callbacks
  import opened Registry

  /**
    How a callback came to be called: by the run, having been queued before the
    run began or during it, or by the thread that registered it.
   */
  datatype How = Early | Late | AtOnce

  datatype Frame =
    | Body(todo: seq<Callback>)             // code with these registrations still to make
    | Enter(c: Callback)                    // a registration, before it has the lock
    | Test(c: Callback)                     // locked: about to look at the queue
    | Redirect(c: Callback)                 // locked: found nothing queued in a run, about to unlock
    | Leave                                 // locked: has queued, about to unlock
    | Call(c: Callback, how: How)           // unlocked: about to call the function
    | Run                                   // the run, before it has the lock
    | Sort                                  // locked: about to sort the queue
    | Loop                                  // locked: about to take the last callback
    | Taken(c: Callback, how: How)          // locked: has taken one, about to unlock
    | Again                                 // unlocked: the call returned, about to lock again
    | Drained                               // locked: has freed the block, about to unlock

  type Thread = seq<Frame>

  datatype Owner = Free | Held(thread: nat)

  /** A callback that was started, and the thread that called it. */
  datatype Started = Started(c: Callback, caller: nat, how: How)

  /**
    What the threads share. The last three fields are history: whether a run has
    begun, what was queued when it did, and how much of that is still queued.
   */
  datatype Shared = Shared(vars: Vars, lock: Owner, started: seq<Started>,
                           begun: bool, queue: seq<Callback>, early: nat)

  datatype System = System(kind: Kind, shared: Shared, threads: seq<Thread>)

  predicate Waits(f: Frame)
  {
    f.Enter? || f.Run? || f.Again?
  }

  predicate Locks(f: Frame)
  {
    f.Test? || f.Redirect? || f.Leave? || f.Sort? || f.Loop? || f.Taken? || f.Drained?
  }

  /** Only these frames can have other frames above them. */
  predicate Resting(f: Frame)
  {
    f.Body? || f.Run? || f.Again?
  }

  predicate OfRunner(f: Frame)
  {
    f.Run? || f.Sort? || f.Loop? || f.Taken? || f.Again? || f.Drained?
  }

  /** How the last callback of the queue came to be queued. */
  function NextHow(g: Shared): How
  {
    if |g.vars.stack| <= g.early then Early else Late
  }

  /** What the top frame of thread `i` does: the new shared state, and the frames that take its place. */
  function Act(kind: Kind, g: Shared, i: nat, top: Frame): (Shared, seq<Frame>)
  {
    match top
    case Body(todo) =>
      if todo == [] then (g, [])
      else if todo[0].f == 0 then (g, [Body(todo[1..])])
      else (g, [Body(todo[1..]), Enter(todo[0])])
    case Enter(c) =>
      (g.(lock := Held(i)), [Test(c)])
    case Test(c) =>
      if RunsAtOnce(g.vars) then (g, [Redirect(c)]) else (g.(vars := Push(g.vars, c)), [Leave])
    case Redirect(c) =>
      (g.(lock := Free), [Call(c, AtOnce)])
    case Leave =>
      (g.(lock := Free), [])
    case Call(c, how) =>
      (g.(started := g.started + [Started(c, i, how)]), [Body(c.registers)])
    case Run =>
      (g.(lock := Held(i)), [Sort])
    case Sort =>
      (g.(vars := g.vars.(stack := Prepared(kind, g.vars.stack)),
          begun := true, queue := g.vars.stack, early := |g.vars.stack|), [Loop])
    case Loop =>
      if g.vars.stack == [] || Last(g.vars.stack).f == 0 then (g.(vars := DRAINED), [Drained])
      else
        (g.(vars := Pop(g.vars), early := if NextHow(g).Early? then |g.vars.stack| - 1 else g.early),
         [Taken(Last(g.vars.stack), NextHow(g))])
    case Taken(c, how) =>
      (g.(lock := Free), [Again, Call(c, how)])
    case Again =>
      (g.(lock := Held(i)), [Loop])
    case Drained =>
      (g.(lock := Free), [])
  }

  /** What `top` does to a registry's fields: the locked sections of the registries themselves do the same. */
  function FieldsAfter(kind: Kind, v: Vars, top: Frame): Vars
  {
    Act(kind, Shared(v, Free, [], false, [], 0), 0, top).0.vars
  }

  /** It depends on nothing else that the threads share, nor on which of them acts. */
  lemma {:induction false} ActOnFields(kind: Kind, g: Shared, i: nat, top: Frame)
    ensures Act(kind, g, i, top).0.vars == FieldsAfter(kind, g.vars, top)
  {
  }

  lemma {:induction false} LockedFields(kind: Kind, v: Vars, c: Callback)
    ensures FieldsAfter(kind, v, Sort) == v.(stack := Prepared(kind, v.stack))
    ensures !RunsAtOnce(v) ==> FieldsAfter(kind, v, Test(c)) == Push(v, c)
    ensures v.stack == [] ==> FieldsAfter(kind, v, Loop) == DRAINED
    ensures v.stack != [] && Last(v.stack).f != 0 ==> FieldsAfter(kind, v, Loop) == Pop(v)
  {
  }

  /** The locked section of the run loop. */
  lemma {:induction false} ActLoop(kind: Kind, g: Shared, i: nat)
    ensures g.vars.stack == [] ==> Act(kind, g, i, Loop) == (g.(vars := DRAINED), [Drained])
    ensures g.vars.stack != [] && Last(g.vars.stack).f != 0 ==>
      Act(kind, g, i, Loop)
        == (g.(vars := Pop(g.vars), early := if NextHow(g).Early? then |g.vars.stack| - 1 else g.early),
            [Taken(Last(g.vars.stack), NextHow(g))])
  {
  }

  /** At most two frames take the place of one. */
  lemma {:induction false} ActWidth(kind: Kind, g: Shared, i: nat, top: Frame)
    ensures |Act(kind, g, i, top).1| <= 2
  {
  }

  predicate Enabled(s: System, i: nat)
  {
    && i < |s.threads|
    && s.threads[i] != []
    && (Waits(Last(s.threads[i])) ==> s.shared.lock == Free)
  }

  function Step(s: System, i: nat): System
    requires Enabled(s, i)
  {
    var t := s.threads[i];
    var r := Act(s.kind, s.shared, i, Last(t));
    s.(shared := r.0, threads := s.threads[i := Init(t) + r.1])
  }

  /** `schedule` only names threads that can step. */
  predicate Possible(s: System, schedule: seq<nat>)
    decreases schedule
  {
    schedule != [] ==> Enabled(s, schedule[0]) && Possible(Step(s, schedule[0]), schedule[1..])
  }

  function After(s: System, schedule: seq<nat>): System
    requires Possible(s, schedule)
    decreases schedule
  {
    if schedule == [] then s else After(Step(s, schedule[0]), schedule[1..])
  }

  lemma {:induction false} AfterConcat(s: System, a: seq<nat>, b: seq<nat>)
    requires Possible(s, a) && Possible(After(s, a), b)
    ensures Possible(s, a + b) && After(s, a + b) == After(After(s, a), b)
    decreases |a|
  {
    if a == [] {
      EmptyConcat(b);
    } else {
      ConcatTail(a, b);
      AfterConcat(Step(s, a[0]), a[1..], b);
    }
  }

  /** Some schedule leads from `s` to `e`. */
  ghost predicate Leads(s: System, e: System)
  {
    exists schedule :: Possible(s, schedule) && After(s, schedule) == e
  }

  lemma {:induction false} LeadsNowhere(s: System)
    ensures Leads(s, s)
  {
    assert Possible(s, []) && After(s, []) == s;
  }

  lemma {:induction false} LeadsStep(s: System, i: nat, e: System)
    requires Enabled(s, i) && Leads(Step(s, i), e)
    ensures Leads(s, e)
  {
    var rest :| Possible(Step(s, i), rest) && After(Step(s, i), rest) == e;
    var schedule := [i] + rest;
    ConcatTail([i], rest);
    assert Possible(s, schedule) && After(s, schedule) == e;
  }

  lemma {:induction false} LeadsTransitive(s: System, m: System, e: System)
    requires Leads(s, m) && Leads(m, e)
    ensures Leads(s, e)
  {
    var a :| Possible(s, a) && After(s, a) == m;
    var b :| Possible(m, b) && After(m, b) == e;
    AfterConcat(s, a, b);
  }

  /**
    The start: a fresh registry, and one thread, the first, that runs it at some
    point of its life. Any thread may register callbacks at any time, the first
    one before and after its run.
   */
  predicate Initial(s: System)
  {
    && s.shared == Shared(FRESH, Free, [], false, [], 0)
    && |s.threads| > 0
    && |s.threads[0]| == 3
    && s.threads[0][0].Body? && s.threads[0][1].Run? && s.threads[0][2].Body?
    && forall i :: 0 < i < |s.threads| ==> |s.threads[i]| == 1 && s.threads[i][0].Body?
  }

  /** Nothing else is asked of the start: any code before and after the run, and any number of other threads. */
  lemma {:induction false} AnyStart(kind: Kind, before: seq<Callback>, after: seq<Callback>,
                                    others: seq<seq<Callback>>)
    ensures var s := System(kind, Shared(FRESH, Free, [], false, [], 0),
                            [[Body(after), Run, Body(before)]]
                            + seq(|others|, i requires 0 <= i < |others| => [Body(others[i])]));
      Initial(s)
  {
  }

  /** A thread waits only for the lock: to register, to begin the run, or to go on with it. */
  lemma {:induction false} WaitsForLockOnly(s: System, i: nat)
    requires i < |s.threads| && s.threads[i] != []
    ensures var top := Last(s.threads[i]);
      !Enabled(s, i) <==> s.shared.lock != Free && (top.Enter? || top.Run? || top.Again?)
  {
  }

  predicate Idle(s: System)
  {
    forall i :: 0 <= i < |s.threads| ==> s.threads[i] == []
  }

  // ----- the lock -----

  predicate Shape(t: Thread)
  {
    forall j :: 0 <= j < |t| - 1 ==> Resting(t[j])
  }

  predicate HoldsLock(t: Thread)
  {
    t != [] && Locks(Last(t))
  }

  /** The lock is held exactly by the thread whose top frame is a locked one. */
  predicate LockInv(s: System)
  {
    && (forall i :: 0 <= i < |s.threads| ==> Shape(s.threads[i]))
    && (forall i :: 0 <= i < |s.threads| ==> (HoldsLock(s.threads[i]) <==> s.shared.lock == Held(i)))
    && (s.shared.lock.Held? ==> s.shared.lock.thread < |s.threads|)
  }

  lemma {:induction false} ShapeStep(s: System, i: nat)
    requires Enabled(s, i) && Shape(s.threads[i])
    ensures Shape(Step(s, i).threads[i])
    ensures var fs := Act(s.kind, s.shared, i, Last(s.threads[i])).1;
      HoldsLock(Step(s, i).threads[i]) <==> (fs != [] && Locks(Last(fs)))
  {
    var t := s.threads[i];
    var fs := Act(s.kind, s.shared, i, Last(t)).1;
    assert forall j :: 0 <= j < |t| - 1 ==> Resting(Init(t)[j]);
  }

  /** Taking the lock leads to a locked frame, releasing it to one that is not, and nothing else touches it. */
  lemma {:induction false} ActLock(kind: Kind, g: Shared, i: nat, top: Frame)
    ensures var r := Act(kind, g, i, top);
      var locked := r.1 != [] && Locks(Last(r.1));
      && (Waits(top) ==> r.0.lock == Held(i) && locked)
      && (Locks(top) ==> r.0.lock == (if locked then g.lock else Free))
      && (!Waits(top) && !Locks(top) ==> r.0.lock == g.lock && !locked)
  {
  }

  lemma {:induction false} LockStep(s: System, i: nat)
    requires LockInv(s) && Enabled(s, i)
    ensures LockInv(Step(s, i))
  {
    ShapeStep(s, i);
    ActLock(s.kind, s.shared, i, Last(s.threads[i]));
    var s' := Step(s, i);
    assert HoldsLock(s.threads[i]) <==> s.shared.lock == Held(i);
    forall k | 0 <= k < |s'.threads|
      ensures Shape(s'.threads[k]) && (HoldsLock(s'.threads[k]) <==> s'.shared.lock == Held(k))
    {
      if k != i {
        assert s'.threads[k] == s.threads[k];
        assert HoldsLock(s.threads[k]) <==> s.shared.lock == Held(k);
      }
    }
  }
}
