/**
  The part that the two registries share, as values: what is queued and the
  size of the block that queues it. The phase of a registry is not stored; it
  is read off these two.
 */
module Registry {
  import opened Sequences
  import opened Callbacks
  import opened Capacity
  import opened PrioritySort

  /** `stack` holds the queued callbacks; the next to be taken is its last. */
  datatype Vars = Vars(stack: seq<Callback>, size: nat)

  const FRESH := Vars([], 0)
  const DRAINED := Vars([], DRAINED_SIZE)

  /** The test that a registration makes: nothing is queued but the block has a size. */
  predicate RunsAtOnce(v: Vars)
  {
    v.stack == [] && v.size != 0
  }

  function Push(v: Vars, c: Callback): Vars
  {
    Vars(v.stack + [c], Grown(|v.stack|, v.size))
  }

  function Pop(v: Vars): Vars
    requires v.stack != []
  {
    v.(stack := Init(v.stack))
  }

  /** mulle-atinit sorts what is queued when a run begins; mulle-atexit takes it as it is. */
  datatype Kind = AtInitKind | AtExitKind

  function Prepared(kind: Kind, stack: seq<Callback>): seq<Callback>
  {
    match kind
    case AtInitKind => Sorted(stack)
    case AtExitKind => stack
  }

  /** The order in which a run takes the callbacks that were queued when it began. */
  function RunOrder(kind: Kind, stack: seq<Callback>): seq<Callback>
  {
    match kind
    case AtInitKind => StableDescending(stack)
    case AtExitKind => Reverse(stack)
  }

  lemma {:induction false} PreparedProperties(kind: Kind, stack: seq<Callback>)
    ensures Reverse(Prepared(kind, stack)) == RunOrder(kind, stack)
    ensures multiset(Prepared(kind, stack)) == multiset(stack)
    ensures NodesAll(Prepared(kind, stack)) == NodesAll(stack)
    ensures WeightAll(Prepared(kind, stack)) == WeightAll(stack)
    ensures |Prepared(kind, stack)| == |stack|
    ensures AllNonNull(stack) ==> AllNonNull(Prepared(kind, stack))
  {
    SortedProperties(stack);
    ReverseInvolutive(StableDescending(stack));
    forall c | c in Prepared(kind, stack)
      ensures c in stack
    {
      assert c in multiset(Prepared(kind, stack));
    }
  }

  /** The order of a run, spelled out: mulle-atexit runs its queue backwards. */
  lemma {:induction false} ExitOrderSpelledOut(stack: seq<Callback>)
    ensures Prepared(AtExitKind, stack) == stack
    ensures |RunOrder(AtExitKind, stack)| == |stack|
    ensures forall k :: 0 <= k < |stack| ==> RunOrder(AtExitKind, stack)[k] == stack[|stack| - 1 - k]
  {
  }

  /** mulle-atinit runs it by descending priority, and in registration order inside each priority. */
  lemma {:induction false} InitOrderSpelledOut(stack: seq<Callback>)
    ensures var order := RunOrder(AtInitKind, stack);
      && multiset(order) == multiset(stack)
      && (forall j, k :: 0 <= j < k < |order| ==> order[j].priority >= order[k].priority)
      && forall p :: OfPriority(p, order) == OfPriority(p, stack)
  {
    StableDescendingProperties(stack);
  }

  /** There is room for `m` more callbacks, or they would not be queued. */
  predicate Accepts(v: Vars, m: nat)
  {
    RunsAtOnce(v) || |v.stack| + m <= MAX_CALLBACKS
  }

  /** What is true of a registry's fields whenever its lock is free. */
  ghost predicate Sound(v: Vars)
  {
    && AllNonNull(v.stack)
    && |v.stack| <= v.size
    && (v.size == DRAINED_SIZE ==> v.stack == [])
    && (v.size != 0 && v.size != DRAINED_SIZE ==> IsCapacity(v.size))
  }

  lemma {:induction false} PushSound(v: Vars, c: Callback)
    requires Sound(v) && !RunsAtOnce(v) && c.f != 0 && |v.stack| < MAX_CALLBACKS
    ensures Sound(Push(v, c)) && !RunsAtOnce(Push(v, c))
    ensures Push(v, c).size != 0 && Push(v, c).size != DRAINED_SIZE
  {
    GrownMakesRoom(|v.stack|, v.size);
    CapacityBounds(Grown(|v.stack|, v.size));
  }
}
