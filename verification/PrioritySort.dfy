/**
  The order in which a run must take the callbacks that were queued before it:
  by descending priority, and in registration order where priorities are equal.
  The C code reaches that order by sorting ascending with a merge that prefers
  the right half on ties, and then taking callbacks from the end of the array.
 */
module PrioritySort {
  import opened Sequences
  import opened Callbacks

  predicate Ascending(s: seq<Callback>)
  {
    forall i, j :: 0 <= i < j < |s| ==> s[i].priority <= s[j].priority
  }

  predicate Descending(s: seq<Callback>)
  {
    forall i, j :: 0 <= i < j < |s| ==> s[i].priority >= s[j].priority
  }

  /** The callbacks of one priority, in the order they have in `s`. */
  function OfPriority(p: int, s: seq<Callback>): seq<Callback>
  {
    if s == [] then [] else (if s[0].priority == p then [s[0]] else []) + OfPriority(p, s[1..])
  }

  /** The reference order: a stable insertion sort by descending priority. */
  function StableDescending(s: seq<Callback>): seq<Callback>
  {
    if s == [] then [] else Insert(s[0], StableDescending(s[1..]))
  }

  function Insert(c: Callback, s: seq<Callback>): seq<Callback>
  {
    if s == [] || c.priority >= s[0].priority then [c] + s else [s[0]] + Insert(c, s[1..])
  }

  /** What the array holds after sorting: the reference order backwards, because it is emptied from its end. */
  function Sorted(s: seq<Callback>): seq<Callback>
  {
    Reverse(StableDescending(s))
  }

  /** Merging two ascending runs; the right run goes first on equal priorities. */
  function Merged(l: seq<Callback>, r: seq<Callback>): seq<Callback>
    decreases |l| + |r|
  {
    if l == [] then r
    else if r == [] then l
    else if l[0].priority < r[0].priority then [l[0]] + Merged(l[1..], r)
    else [r[0]] + Merged(l, r[1..])
  }

  // ----- OfPriority -----

  lemma {:induction false} OfPriorityConcat(p: int, a: seq<Callback>, b: seq<Callback>)
    ensures OfPriority(p, a + b) == OfPriority(p, a) + OfPriority(p, b)
  {
    if a == [] {
      EmptyConcat(b);
      EmptyConcat(OfPriority(p, b));
    } else {
      ConcatTail(a, b);
      OfPriorityConcat(p, a[1..], b);
      ConcatAssoc(if a[0].priority == p then [a[0]] else [], OfPriority(p, a[1..]), OfPriority(p, b));
    }
  }

  lemma {:induction false} OfPriorityReverse(p: int, s: seq<Callback>)
    ensures OfPriority(p, Reverse(s)) == Reverse(OfPriority(p, s))
  {
    if s != [] {
      var h := if s[0].priority == p then [s[0]] else [];
      HeadTail(s);
      ReverseConcat([s[0]], s[1..]);
      assert Reverse([s[0]]) == [s[0]] && Reverse(h) == h;
      OfPriorityConcat(p, Reverse(s[1..]), [s[0]]);
      OfPriorityReverse(p, s[1..]);
      ReverseConcat(h, OfPriority(p, s[1..]));
    }
  }

  lemma {:induction false} OfPriorityEmpty(p: int, s: seq<Callback>)
    ensures OfPriority(p, s) == [] <==> forall c :: c in s ==> c.priority != p
  {
    if s != [] {
      OfPriorityEmpty(p, s[1..]);
      HeadTail(s);
    }
  }

  lemma {:induction false} HeadOccurs(t: seq<Callback>, u: seq<Callback>)
    requires t != []
    requires OfPriority(t[0].priority, t) == OfPriority(t[0].priority, u)
    ensures exists i :: 0 <= i < |u| && u[i].priority == t[0].priority
    ensures OfPriority(t[0].priority, u)[0] == t[0]
  {
    OfPriorityEmpty(t[0].priority, u);
  }

  /** Each head occurs in the other sequence, so neither priority is the lower one. */
  lemma {:induction false} SameHead(t: seq<Callback>, u: seq<Callback>)
    requires Ascending(t) && Ascending(u) && t != [] && u != []
    requires forall p :: OfPriority(p, t) == OfPriority(p, u)
    ensures t[0] == u[0]
  {
    HeadOccurs(t, u);
    HeadOccurs(u, t);
  }

  lemma {:induction false} OfPriorityTail(p: int, t: seq<Callback>)
    requires t != []
    ensures OfPriority(p, t[1..]) == OfPriority(p, t)[if t[0].priority == p then 1 else 0..]
  {
  }

  /** Ascending order and the order inside each priority determine the whole sequence. */
  lemma {:induction false} AscendingUnique(t: seq<Callback>, u: seq<Callback>)
    requires Ascending(t) && Ascending(u)
    requires forall p :: OfPriority(p, t) == OfPriority(p, u)
    ensures t == u
  {
    if t == [] {
      if u != [] {
        HeadOccurs(u, t);
      }
    } else if u == [] {
      HeadOccurs(t, u);
    } else {
      SameHead(t, u);
      forall p
        ensures OfPriority(p, t[1..]) == OfPriority(p, u[1..])
      {
        assert OfPriority(p, t) == OfPriority(p, u);
        OfPriorityTail(p, t);
        OfPriorityTail(p, u);
      }
      AscendingUnique(t[1..], u[1..]);
      HeadTail(t);
      HeadTail(u);
    }
  }

  // ----- the reference order -----

  lemma {:induction false} InsertContents(c: Callback, s: seq<Callback>)
    ensures multiset(Insert(c, s)) == multiset{c} + multiset(s)
    ensures NodesAll(Insert(c, s)) == Nodes(c) + NodesAll(s)
    ensures WeightAll(Insert(c, s)) == Weight(c) + WeightAll(s)
  {
    if s == [] || c.priority >= s[0].priority {
      assert ([c] + s)[1..] == s;
    } else {
      InsertContents(c, s[1..]);
      HeadTail(s);
    }
  }

  lemma {:induction false} PrependDescending(c: Callback, s: seq<Callback>)
    requires Descending(s)
    requires forall x :: x in s ==> c.priority >= x.priority
    ensures Descending([c] + s)
  {
  }

  lemma {:induction false} InsertDescending(c: Callback, s: seq<Callback>)
    requires Descending(s)
    ensures Descending(Insert(c, s))
  {
    if s == [] || c.priority >= s[0].priority {
      PrependDescending(c, s);
    } else {
      InsertDescending(c, s[1..]);
      InsertContents(c, s[1..]);
      forall x | x in Insert(c, s[1..])
        ensures s[0].priority >= x.priority
      {
        assert x in multiset(Insert(c, s[1..]));
        assert x == c || x in s[1..];
      }
      PrependDescending(s[0], Insert(c, s[1..]));
    }
  }

  lemma {:induction false} InsertOfPriority(p: int, c: Callback, s: seq<Callback>)
    ensures OfPriority(p, Insert(c, s)) == (if c.priority == p then [c] else []) + OfPriority(p, s)
  {
    if s == [] || c.priority >= s[0].priority {
      assert ([c] + s)[1..] == s;
    } else {
      var rest := OfPriority(p, s[1..]);
      InsertOfPriority(p, c, s[1..]);
      assert Insert(c, s) == [s[0]] + Insert(c, s[1..]);
      assert Insert(c, s)[1..] == Insert(c, s[1..]);
      if s[0].priority == p {
        assert OfPriority(p, Insert(c, s)) == [s[0]] + rest;
      } else {
        assert OfPriority(p, Insert(c, s)) == OfPriority(p, Insert(c, s[1..]));
      }
    }
  }

  /**
    The reference order is what the library promises: a permutation, by
    descending priority, and registration order inside each priority.
   */
  lemma {:induction false} StableDescendingProperties(s: seq<Callback>)
    ensures Descending(StableDescending(s))
    ensures multiset(StableDescending(s)) == multiset(s)
    ensures forall p :: OfPriority(p, StableDescending(s)) == OfPriority(p, s)
    ensures NodesAll(StableDescending(s)) == NodesAll(s)
    ensures WeightAll(StableDescending(s)) == WeightAll(s)
  {
    if s != [] {
      var rest := StableDescending(s[1..]);
      StableDescendingProperties(s[1..]);
      InsertContents(s[0], rest);
      InsertDescending(s[0], rest);
      HeadTail(s);
      forall p
        ensures OfPriority(p, StableDescending(s)) == OfPriority(p, s)
      {
        assert OfPriority(p, rest) == OfPriority(p, s[1..]);
        InsertOfPriority(p, s[0], rest);
      }
    }
  }

  /** The sorted array is ascending and reverses the registration order inside each priority. */
  lemma {:induction false} SortedProperties(s: seq<Callback>)
    ensures Ascending(Sorted(s))
    ensures multiset(Sorted(s)) == multiset(s)
    ensures forall p :: OfPriority(p, Sorted(s)) == Reverse(OfPriority(p, s))
    ensures NodesAll(Sorted(s)) == NodesAll(s)
    ensures WeightAll(Sorted(s)) == WeightAll(s)
    ensures |Sorted(s)| == |s|
  {
    StableDescendingProperties(s);
    ReverseMultiset(StableDescending(s));
    NodesReverse(StableDescending(s));
    WeightReverse(StableDescending(s));
    assert |multiset(StableDescending(s))| == |multiset(s)|;
    forall p
      ensures OfPriority(p, Sorted(s)) == Reverse(OfPriority(p, s))
    {
      OfPriorityReverse(p, StableDescending(s));
      assert OfPriority(p, StableDescending(s)) == OfPriority(p, s);
    }
  }

  /**
    Any ascending arrangement that reverses the registration order inside each
    priority is the sorted array, and taking it from its end gives the
    reference order.
   */
  lemma {:induction false} AntiStableAscendingIsSorted(s: seq<Callback>, t: seq<Callback>)
    requires Ascending(t)
    requires forall p :: OfPriority(p, t) == Reverse(OfPriority(p, s))
    ensures t == Sorted(s)
    ensures Reverse(t) == StableDescending(s)
  {
    SortedProperties(s);
    forall p
      ensures OfPriority(p, t) == OfPriority(p, Sorted(s))
    {
      assert OfPriority(p, t) == Reverse(OfPriority(p, s));
      assert OfPriority(p, Sorted(s)) == Reverse(OfPriority(p, s));
    }
    AscendingUnique(t, Sorted(s));
    ReverseInvolutive(StableDescending(s));
  }

  // ----- merging -----

  lemma {:induction false} MergedMultiset(l: seq<Callback>, r: seq<Callback>)
    ensures multiset(Merged(l, r)) == multiset(l) + multiset(r)
    ensures |Merged(l, r)| == |l| + |r|
    decreases |l| + |r|
  {
    if l != [] && r != [] {
      assert l == [l[0]] + l[1..] && r == [r[0]] + r[1..];
      if l[0].priority < r[0].priority {
        MergedMultiset(l[1..], r);
      } else {
        MergedMultiset(l, r[1..]);
      }
    }
  }

  lemma {:induction false} PrependAscending(c: Callback, s: seq<Callback>)
    requires Ascending(s)
    requires forall x :: x in s ==> c.priority <= x.priority
    ensures Ascending([c] + s)
  {
  }

  lemma {:induction false} MergedBounded(c: Callback, l: seq<Callback>, r: seq<Callback>)
    requires forall x :: x in l || x in r ==> c.priority <= x.priority
    ensures forall x :: x in Merged(l, r) ==> c.priority <= x.priority
  {
    MergedMultiset(l, r);
    forall x | x in Merged(l, r)
      ensures c.priority <= x.priority
    {
      assert x in multiset(Merged(l, r));
      assert x in multiset(l) || x in multiset(r);
    }
  }

  lemma {:induction false} MergedAscending(l: seq<Callback>, r: seq<Callback>)
    requires Ascending(l) && Ascending(r)
    ensures Ascending(Merged(l, r))
    decreases |l| + |r|
  {
    if l != [] && r != [] {
      if l[0].priority < r[0].priority {
        MergedAscending(l[1..], r);
        MergedBounded(l[0], l[1..], r);
        PrependAscending(l[0], Merged(l[1..], r));
      } else {
        MergedAscending(l, r[1..]);
        MergedBounded(r[0], l, r[1..]);
        PrependAscending(r[0], Merged(l, r[1..]));
      }
    }
  }

  /** On ties the right run comes first, so each priority keeps right before left. */
  lemma {:induction false} MergedAntiStable(p: int, l: seq<Callback>, r: seq<Callback>)
    requires Ascending(l) && Ascending(r)
    ensures OfPriority(p, Merged(l, r)) == OfPriority(p, r) + OfPriority(p, l)
    decreases |l| + |r|
  {
    if l != [] && r != [] {
      if l[0].priority < r[0].priority {
        MergedAntiStable(p, l[1..], r);
        if l[0].priority == p {
          OfPriorityEmpty(p, r);
        }
      } else {
        MergedAntiStable(p, l, r[1..]);
      }
    }
  }

  /** Merging two sorted halves sorts the whole. */
  lemma {:induction false} MergedSorted(l: seq<Callback>, r: seq<Callback>)
    ensures Merged(Sorted(l), Sorted(r)) == Sorted(l + r)
  {
    SortedProperties(l);
    SortedProperties(r);
    MergedAscending(Sorted(l), Sorted(r));
    forall p
      ensures OfPriority(p, Merged(Sorted(l), Sorted(r))) == Reverse(OfPriority(p, l + r))
    {
      MergedAntiStable(p, Sorted(l), Sorted(r));
      OfPriorityConcat(p, l, r);
      ReverseConcat(OfPriority(p, l), OfPriority(p, r));
      assert OfPriority(p, Sorted(l)) == Reverse(OfPriority(p, l));
      assert OfPriority(p, Sorted(r)) == Reverse(OfPriority(p, r));
    }
    AntiStableAscendingIsSorted(l + r, Merged(Sorted(l), Sorted(r)));
  }
}
