/** The array mergesort of mulle-atinit, proved against the reference order. */
module Mergesort {
  import opened Sequences
  import opened Callbacks
  import opened Capacity
  import opened PrioritySort

  const MAX_INT: int := 0x7FFF_FFFF

  /** The C int: what is computed in it is proved to stay in its range. */
  newtype CInt = x: int | -MAX_INT - 1 <= x <= MAX_INT

  /** The number of halvings, rounded up, that bring `n` down to one. */
  function CeilLog2(n: nat): nat
  {
    if n <= 1 then 0 else 1 + CeilLog2((n + 1) / 2)
  }

  lemma {:induction false} CeilLog2Monotone(m: nat, n: nat)
    requires m <= n
    ensures CeilLog2(m) <= CeilLog2(n)
  {
    if m > 1 {
      CeilLog2Monotone((m + 1) / 2, (n + 1) / 2);
    }
  }

  /** CeilLog2 is the binary logarithm, rounded up. */
  lemma {:induction false} CeilLog2Exact(n: nat)
    requires n >= 1
    ensures n <= Pow2(CeilLog2(n))
    ensures n > 1 ==> Pow2(CeilLog2(n) - 1) < n
  {
    if n > 1 {
      CeilLog2Exact((n + 1) / 2);
    }
  }

  lemma {:induction false} CeilLog2OfHalves(m: nat, k: nat)
    requires 1 <= k <= m <= k + 1
    ensures CeilLog2(m + k) == 1 + CeilLog2(m)
  {
    assert (m + k + 1) / 2 == m;
  }

  lemma {:induction false} MulMonotone(k: nat, x: nat, y: nat)
    requires x <= y
    ensures k * x <= k * y
  {
  }

  lemma {:induction false} Distribute(m: nat, k: nat, d: nat)
    ensures (m + k) * (1 + d) == m * d + k * d + (m + k)
  {
  }

  lemma {:induction false} ProductBound(m: nat, k: nat, n: nat, d: nat, e: nat)
    requires n == m + k && 1 <= k && e <= d
    ensures m * d + k * e + (n - 1) <= n * (1 + d)
  {
    MulMonotone(k, e, d);
    Distribute(m, k, d);
  }

  /** Two halves of sizes ceil(n/2) and floor(n/2) plus one merge stay within the bound. */
  lemma {:induction false} HalvesBound(m: nat, k: nat, n: nat)
    requires 1 <= k <= m <= k + 1 && n == m + k
    ensures m * CeilLog2(m) + k * CeilLog2(k) + (n - 1) <= n * CeilLog2(n)
  {
    CeilLog2OfHalves(m, k);
    CeilLog2Monotone(k, m);
    ProductBound(m, k, n, CeilLog2(m), CeilLog2(k));
  }

  /** The most comparisons that sorting from `left` to `right` may take: those of its halves, and of one merge. */
  function Comparisons(left: int, right: int): nat
    decreases right - left
  {
    if left >= right then 0
    else
      var mid := left + (right - left) / 2;
      Comparisons(left, mid) + Comparisons(mid + 1, right) + (right - left)
  }

  lemma {:induction false} Halved(left: int, mid: int, right: int)
    requires left < right && mid == left + (right - left) / 2
    ensures left <= mid < right
    ensures right - mid <= mid + 1 - left <= right - mid + 1
  {
  }

  /** Sorting n entries takes at most n * ceil(log2 n) comparisons. */
  lemma {:induction false} ComparisonBound(left: int, right: int, n: nat)
    requires n == right + 1 - left
    ensures Comparisons(left, right) <= n * CeilLog2(n)
    decreases n
  {
    if n > 1 {
      var mid := left + (right - left) / 2;
      Halved(left, mid, right);
      var m: nat, k: nat := mid + 1 - left, right - mid;
      ComparisonBound(left, mid, m);
      ComparisonBound(mid + 1, right, k);
      HalvesBound(m, k, n);
    }
  }

  lemma {:induction false} SortedShort(s: seq<Callback>)
    requires |s| <= 1
    ensures Sorted(s) == s
  {
    if s != [] {
      assert StableDescending(s[1..]) == [];
      assert StableDescending(s) == s;
    }
  }

  ghost predicate SameOutside(before: seq<Callback>, after: seq<Callback>, left: int, right: int)
  {
    |before| == |after| && forall k :: 0 <= k < |before| && !(left <= k <= right) ==> after[k] == before[k]
  }

  /** `after` is `before` with its two runs merged and nothing else changed. */
  ghost predicate MergesRange(before: seq<Callback>, after: seq<Callback>, left: int, mid: int, right: int)
  {
    && 0 <= left <= mid < right < |before|
    && SameOutside(before, after, left, right)
    && after[left..right + 1] == Merged(before[left..mid + 1], before[mid + 1..right + 1])
  }

  /** What is still to come of the merge when `i` and `j` are the next entries of the two runs. */
  ghost function MergeFrom(s: seq<Callback>, mid: int, right: int, i: int, j: int): seq<Callback>
    requires 0 <= i <= mid + 1 <= j <= right + 1 <= |s|
    decreases mid + 1 - i + right + 1 - j
  {
    if i <= mid && (j == right + 1 || s[i].priority < s[j].priority) then [s[i]] + MergeFrom(s, mid, right, i + 1, j)
    else if j <= right then [s[j]] + MergeFrom(s, mid, right, i, j + 1)
    else []
  }

  lemma {:induction false} MergedNothing(s: seq<Callback>)
    ensures Merged(s, []) == s == Merged([], s)
  {
  }

  lemma {:induction false} LeftNext(s: seq<Callback>, mid: int, right: int, i: int, j: int)
    requires 0 <= i <= mid < j <= right + 1 <= |s|
    requires j == right + 1 || s[i].priority < s[j].priority
    requires MergeFrom(s, mid, right, i + 1, j) == Merged(s[i + 1..mid + 1], s[j..right + 1])
    ensures MergeFrom(s, mid, right, i, j) == Merged(s[i..mid + 1], s[j..right + 1])
  {
    SliceTail(s, i, mid + 1);
    HeadTail(s[i..mid + 1]);
    MergedNothing(s[i..mid + 1]);
    MergedNothing(s[i + 1..mid + 1]);
  }

  lemma {:induction false} RightNext(s: seq<Callback>, mid: int, right: int, i: int, j: int)
    requires 0 <= i <= mid + 1 <= j <= right < |s|
    requires i == mid + 1 || s[i].priority >= s[j].priority
    requires MergeFrom(s, mid, right, i, j + 1) == Merged(s[i..mid + 1], s[j + 1..right + 1])
    ensures MergeFrom(s, mid, right, i, j) == Merged(s[i..mid + 1], s[j..right + 1])
  {
    SliceTail(s, j, right + 1);
    HeadTail(s[j..right + 1]);
    MergedNothing(s[j..right + 1]);
    MergedNothing(s[j + 1..right + 1]);
  }

  lemma {:induction false} MergeFromIsMerged(s: seq<Callback>, mid: int, right: int, i: int, j: int)
    requires 0 <= i <= mid + 1 <= j <= right + 1 <= |s|
    ensures MergeFrom(s, mid, right, i, j) == Merged(s[i..mid + 1], s[j..right + 1])
    decreases mid + 1 - i + right + 1 - j
  {
    if i <= mid && (j == right + 1 || s[i].priority < s[j].priority) {
      MergeFromIsMerged(s, mid, right, i + 1, j);
      LeftNext(s, mid, right, i, j);
    } else if j <= right {
      MergeFromIsMerged(s, mid, right, i, j + 1);
      RightNext(s, mid, right, i, j);
    } else {
      assert s[i..mid + 1] == [] == s[j..right + 1];
    }
  }

  lemma {:induction false} RangeFromPieces(s: seq<Callback>, now: seq<Callback>, left: int, mid: int, right: int,
                                           goal: seq<Callback>)
    requires 0 <= left <= mid < right < |s|
    requires goal == Merged(s[left..mid + 1], s[mid + 1..right + 1])
    requires now == s[..left] + goal + s[right + 1..]
    ensures MergesRange(s, now, left, mid, right)
  {
    MergedMultiset(s[left..mid + 1], s[mid + 1..right + 1]);
    assert now[left..right + 1] == goal;
  }

  lemma {:induction false} Splice(now: seq<Callback>, j: nat, b: seq<Callback>, c: seq<Callback>, front: seq<Callback>)
    requires j <= |now| && now[j..] == b + c && now[..j] + b == front
    ensures now == front + c
  {
    assert now == now[..j] + now[j..];
  }

  /**
    The middle of a merge of the range of `all`, when `i` and `j` are the next
    entries of its two runs: what has been produced fills the range up to the
    place `i + j - mid - 1`, and what lies from `j` on has not moved.
   */
  ghost predicate Merging(all: seq<Callback>, now: seq<Callback>, left: int, mid: int, right: int, i: int, j: int)
  {
    && 0 <= left <= i <= mid + 1 <= j <= right + 1 <= |all| == |now| && mid < right
    && now[..i + j - mid - 1] + MergeFrom(all, mid, right, i, j)
       == all[..left] + MergeFrom(all, mid, right, left, mid + 1)
    && now[j..] == all[j..]
  }

  /** `next` is `now` with `x` stored at `k`. */
  ghost predicate Stores(now: seq<Callback>, k: int, x: Callback, next: seq<Callback>)
  {
    && 0 <= k < |now| == |next|
    && next[k] == x
    && forall y :: 0 <= y < |now| && y != k ==> next[y] == now[y]
  }

  lemma {:induction false} Stored(now: seq<Callback>, k: int, x: Callback, next: seq<Callback>, j: int)
    requires Stores(now, k, x, next) && k < j <= |now|
    ensures next[..k + 1] == now[..k] + [x]
    ensures next[j..] == now[j..]
  {
  }

  lemma {:induction false} TakeLeft(all: seq<Callback>, now: seq<Callback>, next: seq<Callback>,
                                    left: int, mid: int, right: int, i: int, j: int)
    requires Merging(all, now, left, mid, right, i, j)
    requires i <= mid && (j == right + 1 || all[i].priority < all[j].priority)
    requires Stores(now, i + j - mid - 1, all[i], next)
    ensures Merging(all, next, left, mid, right, i + 1, j)
  {
    var k := i + j - mid - 1;
    Stored(now, k, all[i], next, j);
    ConcatAssoc(now[..k], [all[i]], MergeFrom(all, mid, right, i + 1, j));
  }

  lemma {:induction false} TakeRight(all: seq<Callback>, now: seq<Callback>, next: seq<Callback>,
                                     left: int, mid: int, right: int, i: int, j: int)
    requires Merging(all, now, left, mid, right, i, j)
    requires i <= mid && j <= right && all[i].priority >= all[j].priority
    requires Stores(now, i + j - mid - 1, all[j], next)
    ensures Merging(all, next, left, mid, right, i, j + 1)
  {
    var k := i + j - mid - 1;
    Stored(now, k, all[j], next, j + 1);
    assert now[j + 1..] == now[j..][1..] == all[j..][1..] == all[j + 1..];
    ConcatAssoc(now[..k], [all[j]], MergeFrom(all, mid, right, i, j + 1));
  }

  /** With the left run used up, the rest of the right run is already where the merge wants it. */
  lemma {:induction false} MergeDone(all: seq<Callback>, now: seq<Callback>, left: int, mid: int, right: int, j: int)
    requires left <= mid && Merging(all, now, left, mid, right, mid + 1, j)
    ensures MergesRange(all, now, left, mid, right)
  {
    MergeFromIsMerged(all, mid, right, mid + 1, j);
    MergeFromIsMerged(all, mid, right, left, mid + 1);
    assert all[j..] == all[j..right + 1] + all[right + 1..];
    var goal := Merged(all[left..mid + 1], all[mid + 1..right + 1]);
    Splice(now, j, all[j..right + 1], all[right + 1..], all[..left] + goal);
    RangeFromPieces(all, now, left, mid, right, goal);
  }

  /** The first loop of the merge: temp[left..right] becomes a copy of arr[left..right]. */
  method CopyRange(arr: array<Callback>, temp: array<Callback>, left: CInt, right: CInt)
    requires arr != temp
    requires 0 <= left <= right && right as int < arr.Length && right as int < temp.Length
    requires right as int < MAX_INT
    modifies temp
    ensures forall x :: left as int <= x <= right as int ==> temp[x] == arr[x]
  {
    var i := left;
    while i <= right
      invariant left <= i <= right + 1
      invariant forall x :: left as int <= x < i as int ==> temp[x] == arr[x]
    {
      temp[i] := arr[i];
      i := i + 1;
    }
  }

  /** One turn of the second loop: the smaller of the two next entries, and the right one of equal ones. */
  method TakeNext(arr: array<Callback>, temp: array<Callback>, ghost all: seq<Callback>, ghost left: int,
                  mid: CInt, right: CInt, i: CInt, j: CInt, k: CInt)
    returns (i': CInt, j': CInt)
    requires arr != temp && right as int < MAX_INT
    requires Merging(all, arr[..], left, mid as int, right as int, i as int, j as int)
    requires i <= mid && j <= right && k as int == i as int + j as int - mid as int - 1
    requires right as int < temp.Length && temp[i] == all[i] && temp[j] == all[j]
    modifies arr
    ensures Merging(all, arr[..], left, mid as int, right as int, i' as int, j' as int)
    ensures (i' == i + 1 && j' == j) || (i' == i && j' == j + 1)
  {
    ghost var now := arr[..];
    i', j' := i, j;
    if temp[i].priority < temp[j].priority {
      arr[k] := temp[i];
      i' := i + 1;
      TakeLeft(all, now, arr[..], left, mid as int, right as int, i as int, j as int);
    } else {
      arr[k] := temp[j];
      j' := j + 1;
      TakeRight(all, now, arr[..], left, mid as int, right as int, i as int, j as int);
    }
  }

  /**
    The second loop of the merge: takes entries until one run is used up.
    `comparisons` counts the priority comparisons.
   */
  method MergeRuns(arr: array<Callback>, temp: array<Callback>, left: CInt, mid: CInt, right: CInt)
    returns (i: CInt, j: CInt, k: CInt, ghost comparisons: nat)
    requires arr != temp
    requires 0 <= left <= mid < right && right as int < arr.Length && right as int < temp.Length
    requires right as int < MAX_INT
    requires forall x :: left as int <= x <= right as int ==> temp[x] == arr[x]
    modifies arr
    ensures Merging(old(arr[..]), arr[..], left as int, mid as int, right as int, i as int, j as int)
    ensures i == mid + 1 || j == right + 1
    ensures k as int == i as int + j as int - mid as int - 1
    ensures comparisons == k as int - left as int <= right as int - left as int
  {
    ghost var all := arr[..];
    comparisons := 0;
    i := left;
    j := mid + 1;
    k := left;
    while i <= mid && j <= right
      invariant left <= i <= mid + 1 <= j <= right + 1 && (i <= mid || j <= right)
      invariant k as int == i as int + j as int - mid as int - 1
      invariant Merging(all, arr[..], left as int, mid as int, right as int, i as int, j as int)
      invariant forall x :: left as int <= x <= right as int ==> temp[x] == all[x]
      invariant comparisons == k as int - left as int
    {
      comparisons := comparisons + 1;
      i, j := TakeNext(arr, temp, all, left as int, mid, right, i, j, k);
      k := k + 1;
    }
  }

  /**
    The last loop of the merge: what remains of the left run, if anything,
    follows what has been produced. The right run's rest does not move.
   */
  method CopyLeftRest(arr: array<Callback>, temp: array<Callback>, ghost all: seq<Callback>, ghost left: int,
                      mid: CInt, ghost right: int, i0: CInt, ghost j: int, k0: CInt)
    requires arr != temp && right < MAX_INT
    requires Merging(all, arr[..], left, mid as int, right, i0 as int, j)
    requires k0 as int == i0 as int + j - mid as int - 1
    requires i0 <= mid ==> j == right + 1
    requires mid as int < temp.Length && forall x :: i0 as int <= x <= mid as int ==> temp[x] == all[x]
    modifies arr
    ensures Merging(all, arr[..], left, mid as int, right, mid as int + 1, j)
  {
    var i, k := i0, k0;
    while i <= mid
      invariant i0 <= i <= mid + 1
      invariant k as int == i as int + j - mid as int - 1
      invariant Merging(all, arr[..], left, mid as int, right, i as int, j)
    {
      ghost var now := arr[..];
      arr[k] := temp[i];
      TakeLeft(all, now, arr[..], left, mid as int, right, i as int, j);
      i := i + 1;
      k := k + 1;
    }
  }

  /**
    Merges the ascending runs arr[left..mid] and arr[mid+1..right], bounds
    included. `comparisons` counts the priority comparisons.
   */
  method Merge(arr: array<Callback>, temp: array<Callback>, left: CInt, mid: CInt, right: CInt)
    returns (ghost comparisons: nat)
    requires arr != temp
    requires 0 <= left <= mid < right && right as int < arr.Length && right as int < temp.Length
    requires right as int < MAX_INT
    modifies arr, temp
    ensures MergesRange(old(arr[..]), arr[..], left as int, mid as int, right as int)
    ensures comparisons <= right as int - left as int
  {
    ghost var all := arr[..];
    CopyRange(arr, temp, left, right);
    var i, j, k;
    i, j, k, comparisons := MergeRuns(arr, temp, left, mid, right);
    CopyLeftRest(arr, temp, all, left as int, mid, right as int, i, j as int, k);
    // What remains of the right run never moved: it already lies at arr[j..right].
    MergeDone(all, arr[..], left as int, mid as int, right as int, j as int);
  }

  /** `after` is `before` with before[left..right] sorted and nothing else changed. */
  ghost predicate SortsRange(before: seq<Callback>, after: seq<Callback>, left: int, right: int)
  {
    && 0 <= left <= right + 1 <= |before|
    && SameOutside(before, after, left, right)
    && after[left..right + 1] == Sorted(before[left..right + 1])
  }

  lemma {:induction false} SameSlice(before: seq<Callback>, after: seq<Callback>, left: int, right: int,
                                     lo: int, hi: int)
    requires SameOutside(before, after, left, right) && 0 <= lo <= hi <= |before| && (hi <= left || right < lo)
    ensures after[lo..hi] == before[lo..hi]
  {
  }

  /** Sorting the two halves in turn and merging them sorts the range. */
  lemma {:induction false} SortHalves(s0: seq<Callback>, s1: seq<Callback>, s2: seq<Callback>, s3: seq<Callback>,
                   left: int, mid: int, right: int)
    requires left <= mid < right
    requires SortsRange(s0, s1, left, mid) && SortsRange(s1, s2, mid + 1, right)
    requires MergesRange(s2, s3, left, mid, right)
    ensures SortsRange(s0, s3, left, right)
  {
    SameSlice(s0, s1, left, mid, mid + 1, right + 1);
    SameSlice(s1, s2, mid + 1, right, left, mid + 1);
    SliceConcat(s0, left, mid + 1, right + 1);
    MergedSorted(s0[left..mid + 1], s0[mid + 1..right + 1]);
  }

  lemma {:induction false} ShortRange(s: seq<Callback>, left: int, right: int)
    requires 0 <= left <= right + 1 <= |s| && right <= left
    ensures SortsRange(s, s, left, right)
  {
    SortedShort(s[left..right + 1]);
  }

  /** Comparisons, for contracts that are to be read without its recursion. */
  function Allowed(left: int, right: int): nat
  {
    Comparisons(left, right)
  }

  lemma {:induction false} CountHalves(left: int, mid: int, right: int, c1: nat, c2: nat, c3: nat)
    requires left < right && mid == left + (right - left) / 2
    requires c1 <= Allowed(left, mid) && c2 <= Allowed(mid + 1, right) && c3 <= right - left
    ensures c1 + c2 + c3 <= Allowed(left, right)
  {
  }

  /** Sorts arr[left..right], bounds included. */
  method MergesortInternal(arr: array<Callback>, temp: array<Callback>, left: CInt, right: CInt)
    returns (ghost comparisons: nat)
    requires arr != temp
    requires 0 <= left && left as int <= right as int + 1 <= arr.Length && right as int < temp.Length
    requires right as int < MAX_INT
    modifies arr, temp
    ensures SortsRange(old(arr[..]), arr[..], left as int, right as int)
    ensures comparisons <= Allowed(left as int, right as int)
    decreases right as int + 1 - left as int
  {
    comparisons := 0;
    ghost var s0 := arr[..];
    if left < right {
      var mid := left + (right - left) / 2;
      ghost var c1 := MergesortInternal(arr, temp, left, mid);
      ghost var s1 := arr[..];
      ghost var c2 := MergesortInternal(arr, temp, mid + 1, right);
      ghost var s2 := arr[..];
      ghost var c3 := Merge(arr, temp, left, mid, right);
      SortHalves(s0, s1, s2, arr[..], left as int, mid as int, right as int);
      CountHalves(left as int, mid as int, right as int, c1, c2, c3);
      comparisons := c1 + c2 + c3;
    } else {
      ShortRange(s0, left as int, right as int);
    }
  }

  lemma {:induction false} WholeRange(before: seq<Callback>, after: seq<Callback>, size: nat)
    requires 0 < size && SortsRange(before, after, 0, size - 1)
    ensures after[..size] == Sorted(before[..size]) && after[size..] == before[size..]
  {
    assert before[0..size] == before[..size] && after[0..size] == after[..size];
    SameSlice(before, after, 0, size - 1, size, |before|);
  }

  /**
    Sorts the first `size` entries; the rest of the block is not touched.
    `array` may be NULL when there is nothing to sort. From 2^31 entries on the
    last index is not a C int.
   */
  method PrioritizedCallbackMergesort(block: array?<Callback>, size: nat)
    returns (ghost comparisons: nat)
    requires size <= MAX_INT
    requires block == null ==> size == 0
    requires block != null ==> size <= block.Length
    modifies block
    ensures block != null ==> block[..size] == Sorted(old(block[..size]))
    ensures block != null ==> block[size..] == old(block[size..])
    ensures comparisons <= size * CeilLog2(size)
  {
    comparisons := 0;
    if size <= 1 {
      if block != null {
        SortedShort(block[..size]);
      }
      return;
    }
    ComparisonBound(0, size - 1, size);
    var tmp := new Callback[size];
    comparisons := MergesortInternal(block, tmp, 0, size as CInt - 1);
    WholeRange(old(block[..]), block[..], size);
  }
}
