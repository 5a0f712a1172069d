/**
  In which order registrations reach the queue. Every piece of code makes its
  registrations in order, whatever the other threads do in between; so what one
  thread has registered before the run keeps its order among equal priorities.
 */
module ThreadRegistrations {
  import opened Sequences
  import opened Callbacks
  import opened PrioritySort
  import opened Registry
  import opened Threads
  import opened ThreadPhases
  import opened ThreadOrder
  import opened Schedules

  // ----- one piece of code -----

  /** The registration that a frame is making, until it has looked at the queue. */
  function Making(f: Frame): seq<Callback>
  {
    match f
    case Enter(c) => [c]
    case Test(c) => [c]
    case _ => []
  }

  /** What the code in frame `d` of a thread has still to bring to the queue. */
  function ToBring(t: Thread, d: nat): seq<Callback>
  {
    if |t| <= d || !t[d].Body? then []
    else (if |t| == d + 1 then [] else Making(t[d + 1])) + NonNull(t[d].todo)
  }

  /** What a step of thread `j` brings to the queue from frame `d` of thread `i`. */
  function StepBrings(s: System, j: nat, i: nat, d: nat): seq<Callback>
    requires Enabled(s, j)
  {
    if j == i && |s.threads[i]| == d + 2 && Last(s.threads[i]).Test? then [Last(s.threads[i]).c] else []
  }

  function Brings(s: System, schedule: seq<nat>, i: nat, d: nat): seq<Callback>
    requires Possible(s, schedule)
    decreases schedule
  {
    if schedule == [] then []
    else StepBrings(s, schedule[0], i, d) + Brings(Step(s, schedule[0]), schedule[1..], i, d)
  }

  /** Frame `d` of thread `i` is there at the begin of each step. */
  predicate Lasts(s: System, schedule: seq<nat>, i: nat, d: nat)
    requires Possible(s, schedule)
    decreases schedule
  {
    schedule != [] ==>
      && i < |s.threads| && |s.threads[i]| > d
      && Lasts(Step(s, schedule[0]), schedule[1..], i, d)
  }

  /** A step of the thread itself, when its top frame is the code in question. */
  lemma {:induction false} BodyBrings(kind: Kind, g: Shared, i: nat, base: Thread, todo: seq<Callback>)
    ensures var t := base + [Body(todo)];
      var t' := base + Act(kind, g, i, Body(todo)).1;
      && ToBring(t', |base|) == ToBring(t, |base|)
      && (|t'| > |base| ==> t'[|base|].Body?)
  {
    EmptyConcat(NonNull(todo));
    if todo != [] {
      EmptyConcat(NonNull(todo[1..]));
    }
  }

  /** When it is the registration that the code is making, or what came of it. */
  lemma {:induction false} TopBrings(kind: Kind, g: Shared, i: nat, base: Thread, todo: seq<Callback>, top: Frame)
    ensures var t := base + [Body(todo)] + [top];
      var t' := base + [Body(todo)] + Act(kind, g, i, top).1;
      && ToBring(t, |base|) == (if top.Test? then [top.c] else []) + ToBring(t', |base|)
      && t'[|base|] == Body(todo)
  {
    var fs := Act(kind, g, i, top).1;
    EmptyConcat(NonNull(todo));
    MakingAfter(kind, g, i, top);
    var t' := base + [Body(todo)] + fs;
    assert t'[|base|] == Body(todo);
    if fs != [] {
      assert t'[|base| + 1] == fs[0];
    }
    EmptyConcat(ToBring(t', |base|));
  }

  lemma {:induction false} MakingAfter(kind: Kind, g: Shared, i: nat, top: Frame)
    ensures var fs := Act(kind, g, i, top).1;
      (if fs == [] then [] else Making(fs[0])) == if top.Enter? then [top.c] else []
    ensures Making(top) == if top.Enter? || top.Test? then [top.c] else []
  {
  }

  lemma {:induction false} SplitTop(t: Thread)
    requires t != []
    ensures t == t[..|t| - 1] + [Last(t)] && Init(t) == t[..|t| - 1]
  {
  }

  lemma {:induction false} SplitTwo(t: Thread, d: nat)
    requires |t| == d + 2
    ensures t == t[..d] + [t[d]] + [Last(t)] && Init(t) == t[..d] + [t[d]]
  {
  }

  /** A step only moves what the code in frame `d` has still to bring to the queue, in order. */
  lemma {:induction false} BringsStep(s: System, j: nat, i: nat, d: nat)
    requires Enabled(s, j) && i < |s.threads|
    requires |s.threads[i]| > d && s.threads[i][d].Body?
    ensures var t' := Step(s, j).threads[i];
      && ToBring(s.threads[i], d) == StepBrings(s, j, i, d) + ToBring(t', d)
      && (|t'| > d ==> t'[d].Body?)
  {
    var t := s.threads[i];
    EmptyConcat(ToBring(Step(s, j).threads[i], d));
    if j == i {
      if |t| == d + 1 {
        SplitTop(t);
        BodyBrings(s.kind, s.shared, i, t[..d], t[d].todo);
      } else if |t| == d + 2 {
        SplitTwo(t, d);
        TopBrings(s.kind, s.shared, i, t[..d], t[d].todo, Last(t));
      } else {
        var t' := Step(s, j).threads[i];
        assert t'[d] == t[d] && t'[d + 1] == t[d + 1];
      }
    }
  }

  /**
    While some code is running, the registrations it has brought to the queue, in
    order, and those it has still to make are all that it had to make at first.
   */
  lemma {:induction false} CodeRegistersInOrder(s: System, schedule: seq<nat>, i: nat, d: nat)
    requires i < |s.threads| && |s.threads[i]| > d && s.threads[i][d].Body?
    requires Possible(s, schedule) && Lasts(s, schedule, i, d)
    ensures |After(s, schedule).threads| == |s.threads|
    ensures ToBring(s.threads[i], d) == Brings(s, schedule, i, d) + ToBring(After(s, schedule).threads[i], d)
    decreases schedule
  {
    EmptyConcat(ToBring(s.threads[i], d));
    if schedule != [] {
      var next, rest := Step(s, schedule[0]), schedule[1..];
      BringsStep(s, schedule[0], i, d);
      if rest == [] {
        EmptyConcat(StepBrings(s, schedule[0], i, d));
      } else {
        CodeRegistersInOrder(next, rest, i, d);
        ConcatAssoc(StepBrings(s, schedule[0], i, d), Brings(next, rest, i, d),
                    ToBring(After(next, rest).threads[i], d));
      }
    }
  }

  /** Inside every call, a callback makes its registrations in order. */
  lemma {:induction false} CallRegistersInOrder(s: System, i: nat, schedule: seq<nat>)
    requires Enabled(s, i) && Last(s.threads[i]).Call?
    requires Possible(Step(s, i), schedule) && Lasts(Step(s, i), schedule, i, |s.threads[i]| - 1)
    ensures var d := |s.threads[i]| - 1;
      && |After(Step(s, i), schedule).threads| == |s.threads|
      && NonNull(Last(s.threads[i]).c.registers)
         == Brings(Step(s, i), schedule, i, d) + ToBring(After(Step(s, i), schedule).threads[i], d)
  {
    var t := s.threads[i];
    var d := |t| - 1;
    var next := Step(s, i);
    SplitTop(t);
    assert next.threads[i] == t[..d] + [Body(Last(t).c.registers)];
    EmptyConcat(NonNull(Last(t).c.registers));
    CodeRegistersInOrder(next, schedule, i, d);
  }

  lemma {:induction false} BottomRegistersInOrder(s: System, schedule: seq<nat>, i: nat)
    requires i < |s.threads| && (s.threads[i] != [] ==> s.threads[i][0].Body?)
    requires Possible(s, schedule)
    ensures |After(s, schedule).threads| == |s.threads|
    ensures ToBring(s.threads[i], 0) == Brings(s, schedule, i, 0) + ToBring(After(s, schedule).threads[i], 0)
    decreases schedule
  {
    EmptyConcat(ToBring(s.threads[i], 0));
    if schedule != [] {
      var next, rest := Step(s, schedule[0]), schedule[1..];
      if s.threads[i] != [] {
        BringsStep(s, schedule[0], i, 0);
      } else {
        EmptyConcat(ToBring(next.threads[i], 0));
      }
      BottomRegistersInOrder(next, rest, i);
      ConcatAssoc(StepBrings(s, schedule[0], i, 0), Brings(next, rest, i, 0),
                  ToBring(After(next, rest).threads[i], 0));
    }
  }

  /**
    Over every schedule, the registrations that a thread makes outside of any call
    reach the queue in the order of its code, and none is left out. For the first
    thread this is its code after the run.
   */
  lemma {:induction false} ThreadRegistersInOrder(s: System, schedule: seq<nat>, i: nat)
    requires Initial(s) && Possible(s, schedule) && i < |s.threads|
    ensures |After(s, schedule).threads| == |s.threads|
    ensures NonNull(s.threads[i][0].todo)
         == Brings(s, schedule, i, 0) + ToBring(After(s, schedule).threads[i], 0)
  {
    BottomRegistersInOrder(s, schedule, i);
    EmptyConcat(NonNull(s.threads[i][0].todo));
  }
}
