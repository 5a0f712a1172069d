/**
  From the code of the threads to the order of the run: what is registered before
  the run, by whom, and in which order it starts. The orders are spelled out here
  by priorities and positions.
 */
module EarlyRegistrations {
  import opened Sequences
  import opened Callbacks
  import opened PrioritySort
  import opened Registry
  import opened Threads
  import opened ThreadPhases
  import opened ThreadOrder
  import opened Schedules
  import opened ThreadRegistrations

  /** A callback that reaches the queue before the run, and the thread that registers it. */
  datatype Entry = Entry(thread: nat, c: Callback)

  function StepEntries(s: System, i: nat): seq<Entry>
    requires Enabled(s, i)
  {
    if !s.shared.begun && Last(s.threads[i]).Test? then [Entry(i, Last(s.threads[i]).c)] else []
  }

  function Entries(s: System, schedule: seq<nat>): seq<Entry>
    requires Possible(s, schedule)
    decreases schedule
  {
    if schedule == [] then [] else StepEntries(s, schedule[0]) + Entries(Step(s, schedule[0]), schedule[1..])
  }

  function CallbacksOf(entries: seq<Entry>): seq<Callback>
  {
    if entries == [] then [] else [entries[0].c] + CallbacksOf(entries[1..])
  }

  function OfThread(i: nat, entries: seq<Entry>): seq<Callback>
  {
    if entries == [] then []
    else (if entries[0].thread == i then [entries[0].c] else []) + OfThread(i, entries[1..])
  }

  lemma {:induction false} CallbacksOfConcat(a: seq<Entry>, b: seq<Entry>)
    ensures CallbacksOf(a + b) == CallbacksOf(a) + CallbacksOf(b)
  {
    if a == [] {
      EmptyConcat(b);
      EmptyConcat(CallbacksOf(b));
    } else {
      ConcatTail(a, b);
      CallbacksOfConcat(a[1..], b);
      ConcatAssoc([a[0].c], CallbacksOf(a[1..]), CallbacksOf(b));
    }
  }

  lemma {:induction false} OfThreadConcat(i: nat, a: seq<Entry>, b: seq<Entry>)
    ensures OfThread(i, a + b) == OfThread(i, a) + OfThread(i, b)
  {
    if a == [] {
      EmptyConcat(b);
      EmptyConcat(OfThread(i, b));
    } else {
      ConcatTail(a, b);
      OfThreadConcat(i, a[1..], b);
      ConcatAssoc(if a[0].thread == i then [a[0].c] else [], OfThread(i, a[1..]), OfThread(i, b));
    }
  }

  lemma {:induction false} OneEntry(i: nat, x: Entry)
    ensures CallbacksOf([x]) == [x.c]
    ensures OfThread(i, [x]) == if x.thread == i then [x.c] else []
  {
    TailOne(x);
    EmptyConcat([x.c]);
    EmptyConcat(if x.thread == i then [x.c] else []);
  }

  // ----- the queue of a run is what was registered before it -----

  /** What is queued for the run, before it begins and afterwards. */
  function QueuedForRun(s: System): seq<Callback>
  {
    if s.shared.begun then s.shared.queue else s.shared.vars.stack
  }

  lemma {:induction false} EntryStep(s: System, i: nat)
    requires PhaseInv(s) && Enabled(s, i)
    ensures QueuedForRun(Step(s, i)) == QueuedForRun(s) + CallbacksOf(StepEntries(s, i))
  {
    EmptyConcat(QueuedForRun(s));
    var top := Last(s.threads[i]);
    if top.Test? {
      TestIsAdequate(s, i);
      OneEntry(i, Entry(i, top.c));
    } else if OfRunner(top) {
      RunnerIsFirst(s, i);
      RunMoves(s);
    }
  }

  lemma {:induction false} QueueIsEntries(s: System, schedule: seq<nat>)
    requires Inv(s) && Possible(s, schedule)
    ensures QueuedForRun(After(s, schedule)) == QueuedForRun(s) + CallbacksOf(Entries(s, schedule))
    decreases schedule
  {
    EmptyConcat(QueuedForRun(s));
    if schedule != [] {
      var next, rest := Step(s, schedule[0]), schedule[1..];
      InvStep(s, schedule[0]);
      EntryStep(s, schedule[0]);
      QueueIsEntries(next, rest);
      CallbacksOfConcat(StepEntries(s, schedule[0]), Entries(next, rest));
      ConcatAssoc(QueuedForRun(s), CallbacksOf(StepEntries(s, schedule[0])), CallbacksOf(Entries(next, rest)));
    }
  }

  // ----- each thread's part of it -----

  /** Where a thread has the code that it runs first: the first thread's is above its run. */
  function FirstCode(i: nat): nat
  {
    if i == 0 then 2 else 0
  }

  /** Before the run, a thread is at most one registration away from its first code. */
  predicate AtFirstCode(t: Thread, d: nat)
  {
    && |t| <= d + 2
    && (|t| > d ==> t[d].Body?)
    && (|t| == d + 2 ==> Last(t).Enter? || Last(t).Test? || Last(t).Leave?)
    && (0 < |t| <= d ==> !Last(t).Test?)
  }

  predicate FirstCodeInv(s: System)
  {
    !s.shared.begun ==> forall i :: 0 <= i < |s.threads| ==> AtFirstCode(s.threads[i], FirstCode(i))
  }

  lemma {:induction false} FirstCodeInitially(s: System)
    requires Initial(s)
    ensures FirstCodeInv(s)
  {
  }

  /** The run's own frames, before the run begins. */
  lemma {:induction false} RunWaits(s: System)
    requires PhaseInv(s) && !s.shared.begun
    ensures |s.threads[0]| >= 2 && (s.threads[0][1].Run? || s.threads[0][1].Sort?)
  {
  }

  lemma {:induction false} FirstCodeTop(s: System, i: nat)
    requires PhaseInv(s) && Enabled(s, i) && !Step(s, i).shared.begun
    requires var d := FirstCode(i); |s.threads[i]| == d + 2 && AtFirstCode(s.threads[i], d)
    ensures AtFirstCode(Step(s, i).threads[i], FirstCode(i))
  {
    var t, d := s.threads[i], FirstCode(i);
    var top := Last(t);
    if top.Test? {
      TestIsAdequate(s, i);
    }
    var t' := Step(s, i).threads[i];
    assert t'[d] == t[d];
    if top.Leave? {
      assert Last(t') == t[d];
    }
  }

  lemma {:induction false} FirstCodeBody(s: System, i: nat)
    requires PhaseInv(s) && Enabled(s, i) && !Step(s, i).shared.begun
    requires var d := FirstCode(i); |s.threads[i]| == d + 1 && AtFirstCode(s.threads[i], d)
    ensures AtFirstCode(Step(s, i).threads[i], FirstCode(i))
  {
    var t, d := s.threads[i], FirstCode(i);
    var t' := Step(s, i).threads[i];
    assert Last(t) == t[d];
    assert Shape(t);
    if |t'| == d && d > 0 {
      assert Last(t') == t[d - 1];
    }
  }

  lemma {:induction false} FirstCodeStep(s: System, i: nat)
    requires PhaseInv(s) && FirstCodeInv(s) && Enabled(s, i)
    ensures FirstCodeInv(Step(s, i))
  {
    if !Step(s, i).shared.begun {
      RunWaits(s);
      var t, d := s.threads[i], FirstCode(i);
      assert AtFirstCode(t, d);
      if |t| == d + 2 {
        FirstCodeTop(s, i);
      } else if |t| == d + 1 {
        FirstCodeBody(s, i);
      } else {
        BeforeFirstCode(s, i);
      }
    }
  }

  /** With its first code done, a thread before the run is the first one, about to run. */
  lemma {:induction false} BeforeFirstCode(s: System, i: nat)
    requires PhaseInv(s) && Enabled(s, i) && !s.shared.begun && |s.threads[i]| <= FirstCode(i)
    ensures i == 0 && |s.threads[0]| == 2 && !Last(s.threads[0]).Test?
    ensures |Step(s, 0).threads[0]| == 2
    ensures !Step(s, 0).shared.begun ==> !Last(Step(s, 0).threads[0]).Test?
  {
    RunWaits(s);
    assert Last(s.threads[0]) == s.threads[0][|s.threads[0]| - 1];
  }

  lemma {:induction false} EntriesAreBrought(s: System, j: nat, i: nat)
    requires PhaseInv(s) && FirstCodeInv(s) && Enabled(s, j) && !s.shared.begun && i < |s.threads|
    ensures OfThread(i, StepEntries(s, j)) == StepBrings(s, j, i, FirstCode(i))
  {
    assert AtFirstCode(s.threads[j], FirstCode(j));
    if Last(s.threads[j]).Test? {
      OneEntry(i, Entry(j, Last(s.threads[j]).c));
    }
  }

  lemma {:induction false} FirstCodeBrings(s: System, j: nat, i: nat)
    requires PhaseInv(s) && FirstCodeInv(s) && Enabled(s, j) && !s.shared.begun && i < |s.threads|
    ensures ToBring(s.threads[i], FirstCode(i))
         == OfThread(i, StepEntries(s, j)) + ToBring(Step(s, j).threads[i], FirstCode(i))
  {
    var t, d := s.threads[i], FirstCode(i);
    assert AtFirstCode(t, d);
    EntriesAreBrought(s, j, i);
    if |t| > d {
      BringsStep(s, j, i, d);
    } else {
      if j == i {
        BeforeFirstCode(s, i);
      }
      EmptyConcat(ToBring(Step(s, j).threads[i], d));
    }
  }

  lemma {:induction false} NoEntriesInRun(s: System, schedule: seq<nat>)
    requires Possible(s, schedule) && s.shared.begun
    ensures Entries(s, schedule) == []
    decreases schedule
  {
    if schedule != [] {
      NoEntriesInRun(Step(s, schedule[0]), schedule[1..]);
    }
  }

  lemma {:induction false} PrefixAfter<T>(a: seq<T>, b: seq<T>, c: seq<T>)
    requires b <= c
    ensures a + b <= a + c
  {
    assert c == b + c[|b|..];
    ConcatAssoc(a, b, c[|b|..]);
  }

  lemma {:induction false} EntriesFollowCode(s: System, schedule: seq<nat>, i: nat)
    requires Inv(s) && FirstCodeInv(s) && Possible(s, schedule) && i < |s.threads|
    requires !s.shared.begun
    ensures OfThread(i, Entries(s, schedule)) <= ToBring(s.threads[i], FirstCode(i))
    decreases schedule
  {
    if schedule != [] {
      var next, rest := Step(s, schedule[0]), schedule[1..];
      InvStep(s, schedule[0]);
      FirstCodeStep(s, schedule[0]);
      FirstCodeBrings(s, schedule[0], i);
      if next.shared.begun {
        NoEntriesInRun(next, rest);
      } else {
        EntriesFollowCode(next, rest, i);
      }
      OfThreadConcat(i, StepEntries(s, schedule[0]), Entries(next, rest));
      PrefixAfter(OfThread(i, StepEntries(s, schedule[0])), OfThread(i, Entries(next, rest)),
                  ToBring(next.threads[i], FirstCode(i)));
    }
  }

  // ----- the order of the starts -----

  /**
    What is queued when the run begins is what was registered before it, in order;
    and what one thread has registered of that is the begin of what its code
    registers, in the order of the code.
   */
  lemma {:induction false} QueueFollowsCode(s: System, schedule: seq<nat>, i: nat)
    requires Initial(s) && Fits(s) && Possible(s, schedule) && i < |s.threads|
    ensures After(s, schedule).shared.begun ==>
      After(s, schedule).shared.queue == CallbacksOf(Entries(s, schedule))
    ensures OfThread(i, Entries(s, schedule)) <= NonNull(s.threads[i][FirstCode(i)].todo)
  {
    InvInitially(s);
    FirstCodeInitially(s);
    QueueIsEntries(s, schedule);
    EmptyConcat(CallbacksOf(Entries(s, schedule)));
    EntriesFollowCode(s, schedule, i);
    EmptyConcat(NonNull(s.threads[i][FirstCode(i)].todo));
  }

  /** What has started of what was registered before the run, at any point. */
  lemma {:induction false} StartsOfQueue(s: System, schedule: seq<nat>)
    requires Initial(s) && Fits(s) && Possible(s, schedule)
    ensures StartsOf(Early, After(s, schedule).shared.started)
         <= RunOrder(s.kind, CallbacksOf(Entries(s, schedule)))
  {
    InvInitially(s);
    EverySchedule(s, schedule);
    if After(s, schedule).shared.begun {
      EarlyStartsAreOrdered(s, schedule);
      QueueFollowsCode(s, schedule, 0);
    }
  }

  lemma {:induction false} AllOfQueueStarts(s: System, schedule: seq<nat>)
    requires Initial(s) && Fits(s) && Possible(s, schedule)
    requires forall i: nat :: !Enabled(After(s, schedule), i)
    ensures StartsOf(Early, After(s, schedule).shared.started)
         == RunOrder(s.kind, CallbacksOf(Entries(s, schedule)))
  {
    InvInitially(s);
    EverySchedule(s, schedule);
    EveryCompleteSchedule(s, schedule);
    assert NoRunner(After(s, schedule).threads[0]);
    QueueFollowsCode(s, schedule, 0);
  }

  /**
    mulle-atinit: what was registered before the run starts by descending priority,
    and in the order of registration inside each priority; in the end all of it.
   */
  lemma {:induction false} InitStartsByPriority(s: System, schedule: seq<nat>)
    requires Initial(s) && Fits(s) && Possible(s, schedule) && s.kind == AtInitKind
    ensures var registered := CallbacksOf(Entries(s, schedule));
      var started := StartsOf(Early, After(s, schedule).shared.started);
      && (forall j, k :: 0 <= j < k < |started| ==> started[j].priority >= started[k].priority)
      && (forall p :: OfPriority(p, started) <= OfPriority(p, registered))
      && ((forall i: nat :: !Enabled(After(s, schedule), i)) ==>
            && multiset(started) == multiset(registered)
            && forall p :: OfPriority(p, started) == OfPriority(p, registered))
  {
    var registered := CallbacksOf(Entries(s, schedule));
    StartsOfQueue(s, schedule);
    PrefixByPriority(StartsOf(Early, After(s, schedule).shared.started), registered);
    if forall i: nat :: !Enabled(After(s, schedule), i) {
      AllOfQueueStarts(s, schedule);
      StableDescendingProperties(registered);
    }
  }

  lemma {:induction false} PrefixByPriority(started: seq<Callback>, registered: seq<Callback>)
    requires started <= StableDescending(registered)
    ensures forall j, k :: 0 <= j < k < |started| ==> started[j].priority >= started[k].priority
    ensures forall p :: OfPriority(p, started) <= OfPriority(p, registered)
  {
    StableDescendingProperties(registered);
    forall p
      ensures OfPriority(p, started) <= OfPriority(p, registered)
    {
      PriorityOfPrefix(p, started, StableDescending(registered));
      assert OfPriority(p, StableDescending(registered)) == OfPriority(p, registered);
    }
  }

  lemma {:induction false} PriorityOfPrefix(p: int, a: seq<Callback>, b: seq<Callback>)
    requires a <= b
    ensures OfPriority(p, a) <= OfPriority(p, b)
  {
    assert b == a + b[|a|..];
    OfPriorityConcat(p, a, b[|a|..]);
  }

  /** mulle-atexit: what was registered before the run starts last-registered first; in the end all of it. */
  lemma {:induction false} ExitStartsBackwards(s: System, schedule: seq<nat>)
    requires Initial(s) && Fits(s) && Possible(s, schedule) && s.kind == AtExitKind
    ensures var registered := CallbacksOf(Entries(s, schedule));
      var started := StartsOf(Early, After(s, schedule).shared.started);
      && |started| <= |registered|
      && (forall k :: 0 <= k < |started| ==> started[k] == registered[|registered| - 1 - k])
      && ((forall i: nat :: !Enabled(After(s, schedule), i)) ==> |started| == |registered|)
  {
    StartsOfQueue(s, schedule);
    if forall i: nat :: !Enabled(After(s, schedule), i) {
      AllOfQueueStarts(s, schedule);
    }
  }

  // ----- two callbacks of one thread -----

  /** `a` can be made from `b` by leaving entries out. */
  predicate Subsequence(a: seq<Callback>, b: seq<Callback>)
    decreases |b|
  {
    a == [] || (b != [] && (Subsequence(a, b[1..]) || (a[0] == b[0] && Subsequence(a[1..], b[1..]))))
  }

  lemma {:induction false} SubsequenceTransitive(a: seq<Callback>, b: seq<Callback>, c: seq<Callback>)
    requires Subsequence(a, b) && Subsequence(b, c)
    ensures Subsequence(a, c)
    decreases |b| + |c|
  {
    if a != [] {
      if Subsequence(b, c[1..]) {
        SubsequenceTransitive(a, b, c[1..]);
      } else if Subsequence(a, b[1..]) {
        SubsequenceTransitive(a, b[1..], c[1..]);
      } else {
        SubsequenceTransitive(a[1..], b[1..], c[1..]);
      }
    }
  }

  lemma {:induction false} ThreadSubsequence(i: nat, entries: seq<Entry>)
    ensures Subsequence(OfThread(i, entries), CallbacksOf(entries))
  {
    if entries != [] {
      var rest := entries[1..];
      ThreadSubsequence(i, rest);
      ConcatTail([entries[0].c], CallbacksOf(rest));
      TailOne(entries[0].c);
      EmptyConcat(CallbacksOf(rest));
      EmptyConcat(OfThread(i, rest));
    }
  }

  lemma {:induction false} PrioritySubsequence(p: int, s: seq<Callback>)
    ensures Subsequence(OfPriority(p, s), s)
  {
    if s != [] {
      PrioritySubsequence(p, s[1..]);
      EmptyConcat(OfPriority(p, s[1..]));
    }
  }

  lemma {:induction false} PriorityOfSubsequence(p: int, a: seq<Callback>, b: seq<Callback>)
    requires Subsequence(a, b)
    ensures Subsequence(OfPriority(p, a), OfPriority(p, b))
    decreases |b|
  {
    if a != [] {
      EmptyConcat(OfPriority(p, b[1..]));
      if Subsequence(a, b[1..]) {
        PriorityOfSubsequence(p, a, b[1..]);
      } else {
        PriorityOfSubsequence(p, a[1..], b[1..]);
        EmptyConcat(OfPriority(p, a[1..]));
      }
    }
  }

  /** Two entries of a sequence, in their order. */
  lemma {:induction false} PairOf(s: seq<Callback>, j: nat, k: nat)
    requires j < k < |s|
    ensures Subsequence([s[j], s[k]], s)
    decreases j
  {
    if j > 0 {
      PairOf(s[1..], j - 1, k - 1);
    } else {
      OneOf(s[1..], k - 1);
      assert [s[0], s[k]][1..] == [s[k]];
    }
  }

  lemma {:induction false} OneOf(s: seq<Callback>, k: nat)
    requires k < |s|
    ensures Subsequence([s[k]], s)
  {
    if k > 0 {
      OneOf(s[1..], k - 1);
    } else {
      TailOne(s[0]);
    }
  }

  lemma {:induction false} PlaceOfOne(x: Callback, s: seq<Callback>)
    requires Subsequence([x], s)
    ensures x in s
  {
    if x != s[0] {
      PlaceOfOne(x, s[1..]);
    }
  }

  lemma {:induction false} PlacesOf(x: Callback, y: Callback, s: seq<Callback>)
    requires Subsequence([x, y], s)
    ensures exists j, k :: 0 <= j < k < |s| && s[j] == x && s[k] == y
  {
    if Subsequence([x, y], s[1..]) {
      PlacesOf(x, y, s[1..]);
      var j, k :| 0 <= j < k < |s[1..]| && s[1..][j] == x && s[1..][k] == y;
      assert s[j + 1] == x && s[k + 1] == y;
    } else {
      assert [x, y][1..] == [y];
      PlaceOfOne(y, s[1..]);
      var k :| 0 <= k < |s[1..]| && s[1..][k] == y;
      assert s[0] == x && s[k + 1] == y;
    }
  }

  lemma {:induction false} PriorityPair(x: Callback, y: Callback)
    requires x.priority == y.priority
    ensures OfPriority(x.priority, [x, y]) == [x, y]
  {
    assert [x, y][1..] == [y];
    TailOne(y);
    assert OfPriority(x.priority, [y]) == [y];
    assert [x] + [y] == [x, y];
  }

  /** What keeps the order inside each priority keeps that of two entries of equal priority. */
  lemma {:induction false} PairKept(x: Callback, y: Callback, from: seq<Callback>, to: seq<Callback>)
    requires Subsequence([x, y], from) && x.priority == y.priority
    requires OfPriority(x.priority, from) == OfPriority(x.priority, to)
    ensures exists j, k :: 0 <= j < k < |to| && to[j] == x && to[k] == y
  {
    PriorityPair(x, y);
    PriorityOfSubsequence(x.priority, [x, y], from);
    PrioritySubsequence(x.priority, to);
    SubsequenceTransitive([x, y], OfPriority(x.priority, to), to);
    PlacesOf(x, y, to);
  }

  /**
    mulle-atinit: of two callbacks of equal priority that one thread registers
    before the run, the one that its code registers first starts first.
   */
  lemma {:induction false} FirstRegisteredStartsFirst(s: System, schedule: seq<nat>, i: nat, a: nat, b: nat)
    requires Initial(s) && Fits(s) && Possible(s, schedule) && s.kind == AtInitKind && i < |s.threads|
    requires forall k: nat :: !Enabled(After(s, schedule), k)
    requires var own := OfThread(i, Entries(s, schedule));
      a < b < |own| && own[a].priority == own[b].priority
    ensures var code := NonNull(s.threads[i][FirstCode(i)].todo);
      var started := StartsOf(Early, After(s, schedule).shared.started);
      && b < |code|
      && exists j, k :: 0 <= j < k < |started| && started[j] == code[a] && started[k] == code[b]
  {
    var own, registered := OfThread(i, Entries(s, schedule)), CallbacksOf(Entries(s, schedule));
    var started := StartsOf(Early, After(s, schedule).shared.started);
    QueueFollowsCode(s, schedule, i);
    InitStartsByPriority(s, schedule);
    PairOf(own, a, b);
    ThreadSubsequence(i, Entries(s, schedule));
    SubsequenceTransitive([own[a], own[b]], own, registered);
    assert OfPriority(own[a].priority, started) == OfPriority(own[a].priority, registered);
    PairKept(own[a], own[b], registered, started);
  }

  /**
    mulle-atexit: of two callbacks that one thread registers before the run, the
    one that its code registers last starts first.
   */
  lemma {:induction false} LastRegisteredStartsFirst(s: System, schedule: seq<nat>, i: nat, a: nat, b: nat)
    requires Initial(s) && Fits(s) && Possible(s, schedule) && s.kind == AtExitKind && i < |s.threads|
    requires forall k: nat :: !Enabled(After(s, schedule), k)
    requires a < b < |OfThread(i, Entries(s, schedule))|
    ensures var code := NonNull(s.threads[i][FirstCode(i)].todo);
      var started := StartsOf(Early, After(s, schedule).shared.started);
      && b < |code|
      && exists j, k :: 0 <= j < k < |started| && started[j] == code[b] && started[k] == code[a]
  {
    var own, registered := OfThread(i, Entries(s, schedule)), CallbacksOf(Entries(s, schedule));
    var started := StartsOf(Early, After(s, schedule).shared.started);
    QueueFollowsCode(s, schedule, i);
    ExitStartsBackwards(s, schedule);
    PairOf(own, a, b);
    ThreadSubsequence(i, Entries(s, schedule));
    SubsequenceTransitive([own[a], own[b]], own, registered);
    PairTurned(own[a], own[b], registered, started);
  }

  lemma {:induction false} PairTurned(x: Callback, y: Callback, from: seq<Callback>, to: seq<Callback>)
    requires Subsequence([x, y], from)
    requires |to| == |from| && forall k :: 0 <= k < |to| ==> to[k] == from[|from| - 1 - k]
    ensures exists j, k :: 0 <= j < k < |to| && to[j] == y && to[k] == x
  {
    PlacesOf(x, y, from);
    var j, k :| 0 <= j < k < |from| && from[j] == x && from[k] == y;
    assert to[|from| - 1 - k] == y && to[|from| - 1 - j] == x;
  }
}
