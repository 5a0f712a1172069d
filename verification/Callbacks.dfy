/** What the two registries hold: callbacks, and what calling one does. */
module Callbacks {
  import opened Sequences

  /**
    One registration. `f` is the code address, 0 being NULL; `userinfo` is the
    argument the code receives. `registers` lists, in order, the registrations
    that one call of the code makes with the same registry, so a callback is a
    finite tree.
   */
  datatype Callback = Callback(f: nat, userinfo: nat, priority: int, comment: string, registers: seq<Callback>)

  const NOTHING := Callback(0, 0, 0, "", [])

  /** What an observer sees of a callback: control enters it and later leaves it. */
  datatype Event = Start(c: Callback) | Finish(c: Callback)

  /** The registrations that survive the NULL guard. */
  function NonNull(cs: seq<Callback>): seq<Callback>
  {
    if cs == [] then [] else (if cs[0].f == 0 then [] else [cs[0]]) + NonNull(cs[1..])
  }

  predicate AllNonNull(cs: seq<Callback>)
  {
    forall c :: c in cs ==> c.f != 0
  }

  lemma {:induction false} NonNullConcat(a: seq<Callback>, b: seq<Callback>)
    ensures NonNull(a + b) == NonNull(a) + NonNull(b)
  {
    if a == [] {
      EmptyConcat(b);
      EmptyConcat(NonNull(b));
    } else {
      ConcatTail(a, b);
      NonNullConcat(a[1..], b);
      ConcatAssoc(if a[0].f == 0 then [] else [a[0]], NonNull(a[1..]), NonNull(b));
    }
  }

  lemma {:induction false} NonNullSnoc(cs: seq<Callback>)
    requires cs != []
    ensures NonNull(cs) == NonNull(Init(cs)) + (if Last(cs).f == 0 then [] else [Last(cs)])
  {
    InitLast(cs);
    NonNullConcat(Init(cs), [Last(cs)]);
    TailOne(Last(cs));
    EmptyConcat(if Last(cs).f == 0 then [] else [Last(cs)]);
  }

  lemma {:induction false} NonNullIdentity(cs: seq<Callback>)
    ensures AllNonNull(NonNull(cs))
    ensures AllNonNull(cs) ==> NonNull(cs) == cs
    ensures |NonNull(cs)| <= |cs|
  {
    if cs != [] {
      NonNullIdentity(cs[1..]);
      HeadTail(cs);
    }
  }

  /** The number of registrations a callback stands for, itself and NULLs included. */
  function Weight(c: Callback): (w: nat)
    ensures w >= 1
    decreases c
  {
    1 + WeightAll(c.registers)
  }

  function WeightAll(cs: seq<Callback>): nat
    decreases cs
  {
    if cs == [] then 0 else Weight(cs[0]) + WeightAll(cs[1..])
  }

  lemma {:induction false} WeightConcat(a: seq<Callback>, b: seq<Callback>)
    ensures WeightAll(a + b) == WeightAll(a) + WeightAll(b)
  {
    if a == [] {
      EmptyConcat(b);
    } else {
      ConcatTail(a, b);
      WeightConcat(a[1..], b);
    }
  }

  lemma {:induction false} WeightBounds(cs: seq<Callback>)
    ensures |cs| <= WeightAll(cs)
    ensures WeightAll(NonNull(cs)) <= WeightAll(cs)
  {
    if cs != [] {
      WeightBounds(cs[1..]);
      WeightConcat(if cs[0].f == 0 then [] else [cs[0]], NonNull(cs[1..]));
    }
  }

  lemma {:induction false} WeightReverse(cs: seq<Callback>)
    ensures WeightAll(Reverse(cs)) == WeightAll(cs)
  {
    if cs != [] {
      HeadTail(cs);
      ReverseConcat([cs[0]], cs[1..]);
      ReverseOne(cs[0]);
      WeightConcat(Reverse(cs[1..]), [cs[0]]);
      WeightReverse(cs[1..]);
    }
  }

  /** Every call that a callback stands for: its own and, if it runs, those of what it registers. */
  function Nodes(c: Callback): multiset<Callback>
    decreases c
  {
    if c.f == 0 then multiset{} else multiset{c} + NodesAll(c.registers)
  }

  function NodesAll(cs: seq<Callback>): multiset<Callback>
    decreases cs
  {
    if cs == [] then multiset{} else Nodes(cs[0]) + NodesAll(cs[1..])
  }

  lemma {:induction false} NodesConcat(a: seq<Callback>, b: seq<Callback>)
    ensures NodesAll(a + b) == NodesAll(a) + NodesAll(b)
  {
    if a == [] {
      EmptyConcat(b);
    } else {
      ConcatTail(a, b);
      NodesConcat(a[1..], b);
    }
  }

  lemma {:induction false} NodesReverse(cs: seq<Callback>)
    ensures NodesAll(Reverse(cs)) == NodesAll(cs)
  {
    if cs != [] {
      HeadTail(cs);
      ReverseConcat([cs[0]], cs[1..]);
      ReverseOne(cs[0]);
      NodesConcat(Reverse(cs[1..]), [cs[0]]);
      NodesReverse(cs[1..]);
    }
  }

  lemma {:induction false} NodesBound(cs: seq<Callback>)
    requires AllNonNull(cs)
    ensures |cs| <= |NodesAll(cs)|
  {
    if cs != [] {
      NodesBound(cs[1..]);
    }
  }
}
