/**
  The value-level view of the binary min-heap behind PQHeap: the live prefix of the
  backing array as a sequence, the heap-order invariant over it, and the two repair
  walks (sift-up after an append, sift-down after the root is replaced) written as
  functions that make exactly the comparisons and exchanges of the array code.
 */
module HeapSpec {

  /** An element: an opaque name the heap never inspects and an integer priority. */
  datatype DataPoint = DataPoint(name: string, priority: int)

  /** Index of the parent of a non-root slot. */
  function Parent(i: nat): (p: nat)
    requires 0 < i
    ensures p < i
    ensures i == 2 * p + 1 || i == 2 * p + 2
  {
    (i - 1) / 2
  }

  /** The min-heap property: no slot has a smaller priority than its parent. */
  ghost predicate IsHeap(s: seq<DataPoint>) {
    forall i :: 0 < i < |s| ==> s[Parent(i)].priority <= s[i].priority
  }

  /** Priorities never decrease from left to right. */
  ghost predicate SortedByPriority(s: seq<DataPoint>) {
    forall a, b :: 0 <= a < b < |s| ==> s[a].priority <= s[b].priority
  }

  /** Exchange of two slots. */
  function Swap(s: seq<DataPoint>, i: nat, j: nat): (r: seq<DataPoint>)
    requires i < |s| && j < |s|
    ensures |r| == |s| && r[i] == s[j] && r[j] == s[i]
    ensures forall k :: 0 <= k < |s| && k != i && k != j ==> r[k] == s[k]
  {
    s[i := s[j]][j := s[i]]
  }

  /** An exchange rearranges the elements without adding or losing any. */
  lemma SwapIsPermutation(s: seq<DataPoint>, i: nat, j: nat)
    requires i < |s| && j < |s|
    ensures multiset(Swap(s, i, j)) == multiset(s)
  {
  }

  /**
    Sift-up from slot i: while i is not the root and its priority is strictly below
    its parent's, exchange the two and continue from the parent.
   */
  function SiftUp(s: seq<DataPoint>, i: nat): (r: seq<DataPoint>)
    requires i < |s|
    ensures |r| == |s|
    decreases i
  {
    if i == 0 then s
    else
      var p := Parent(i);
      if s[i].priority < s[p].priority then SiftUp(Swap(s, i, p), p) else s
  }

  /**
    The slot sift-down moves slot i to: the left child if it exists and is strictly
    smaller than i, then the right child if it exists and is strictly smaller than
    that choice; i itself when neither child wins.
   */
  function Smallest(s: seq<DataPoint>, i: nat): (c: nat)
    ensures c == i || (c < |s| && (c == 2 * i + 1 || c == 2 * i + 2))
    ensures c != i ==> i < |s| && s[c].priority < s[i].priority
    ensures 2 * i + 1 < |s| ==> s[c].priority <= s[2 * i + 1].priority
    ensures 2 * i + 2 < |s| ==> s[c].priority <= s[2 * i + 2].priority
    ensures c == 2 * i + 2 ==> s[2 * i + 2].priority < s[2 * i + 1].priority
  {
    var left, right := 2 * i + 1, 2 * i + 2;
    var afterLeft := if left < |s| && s[i].priority > s[left].priority then left else i;
    if right < |s| && s[afterLeft].priority > s[right].priority then right else afterLeft
  }

  /**
    Sift-down from slot i: exchange i with the slot Smallest picks and continue from
    there, until Smallest picks i itself (in particular when i has no children).
   */
  function SiftDown(s: seq<DataPoint>, i: nat): (r: seq<DataPoint>)
    ensures |r| == |s|
    decreases |s| - i
  {
    var c := Smallest(s, i);
    if c == i then s else SiftDown(Swap(s, i, c), c)
  }

  /** The live contents after enqueueing x: append it, then sift it up. */
  function Enqueued(s: seq<DataPoint>, x: DataPoint): (r: seq<DataPoint>)
    ensures |r| == |s| + 1
  {
    SiftUp(s + [x], |s|)
  }

  /**
    The live contents after a dequeue: exchange the root with the last live slot,
    drop that slot from the live range, then sift the new root down.
   */
  function Dequeued(s: seq<DataPoint>): (r: seq<DataPoint>)
    requires |s| > 0
    ensures |r| == |s| - 1
  {
    var t := Swap(s, 0, |s| - 1);
    SiftDown(t[..|s| - 1], 0)
  }

  /** The elements returned by dequeueing until the queue is empty, in order. */
  function Drain(s: seq<DataPoint>): (r: seq<DataPoint>)
    ensures |r| == |s|
    decreases |s|
  {
    if |s| == 0 then [] else [s[0]] + Drain(Dequeued(s))
  }

  /** Sift-up only rearranges: it keeps every element exactly as often as before. */
  lemma {:induction false} SiftUpIsPermutation(s: seq<DataPoint>, i: nat)
    requires i < |s|
    ensures multiset(SiftUp(s, i)) == multiset(s)
    decreases i
  {
    if 0 < i && s[i].priority < s[Parent(i)].priority {
      SwapIsPermutation(s, i, Parent(i));
      SiftUpIsPermutation(Swap(s, i, Parent(i)), Parent(i));
    }
  }

  /** Sift-down only rearranges: it keeps every element exactly as often as before. */
  lemma {:induction false} SiftDownIsPermutation(s: seq<DataPoint>, i: nat)
    ensures multiset(SiftDown(s, i)) == multiset(s)
    decreases |s| - i
  {
    var c := Smallest(s, i);
    if c != i {
      SwapIsPermutation(s, i, c);
      SiftDownIsPermutation(Swap(s, i, c), c);
    }
  }

  /** Enqueueing adds exactly one copy of x and loses nothing. */
  lemma EnqueuedIsPermutation(s: seq<DataPoint>, x: DataPoint)
    ensures multiset(Enqueued(s, x)) == multiset(s) + multiset{x}
  {
    SiftUpIsPermutation(s + [x], |s|);
  }

  /** Dequeueing removes exactly one copy of the root and loses nothing else. */
  lemma DequeuedIsPermutation(s: seq<DataPoint>)
    requires |s| > 0
    ensures multiset(Dequeued(s)) == multiset(s) - multiset{s[0]}
  {
    var t := Swap(s, 0, |s| - 1);
    SwapIsPermutation(s, 0, |s| - 1);
    assert t == t[..|s| - 1] + [s[0]];
    SiftDownIsPermutation(t[..|s| - 1], 0);
  }

  /** Heap order everywhere except possibly between slot i and its parent. */
  ghost predicate HeapExceptUp(s: seq<DataPoint>, i: nat) {
    i < |s| &&
    (forall j :: 0 < j < |s| && j != i ==> s[Parent(j)].priority <= s[j].priority) &&
    (0 < i ==> forall j :: 0 < j < |s| && Parent(j) == i ==> s[Parent(i)].priority <= s[j].priority)
  }

  /** Heap order everywhere except possibly between slot i and its children. */
  ghost predicate HeapExceptDown(s: seq<DataPoint>, i: nat) {
    (forall j :: 0 < j < |s| && Parent(j) != i ==> s[Parent(j)].priority <= s[j].priority) &&
    (0 < i ==> forall j :: 0 < j < |s| && Parent(j) == i ==> s[Parent(i)].priority <= s[j].priority)
  }

  /** Sift-up repairs a heap whose only fault is slot i against its parent. */
  lemma {:induction false} SiftUpRestoresHeap(s: seq<DataPoint>, i: nat)
    requires HeapExceptUp(s, i)
    ensures IsHeap(SiftUp(s, i))
    decreases i
  {
    if i == 0 {
      return;
    }
    var p := Parent(i);
    if s[i].priority < s[p].priority {
      var t := Swap(s, i, p);
      forall j | 0 < j < |t| && j != p
        ensures t[Parent(j)].priority <= t[j].priority
      {
        if j == i {
        } else if Parent(j) == i {
          assert t[i] == s[p];
        } else if Parent(j) == p {
          assert s[p].priority <= s[j].priority;
        } else {
          assert Parent(j) != i && j != p;
        }
      }
      if 0 < p {
        forall j | 0 < j < |t| && Parent(j) == p
          ensures t[Parent(p)].priority <= t[j].priority
        {
          assert Parent(p) != i;
          assert s[Parent(p)].priority <= s[p].priority;
        }
      }
      assert HeapExceptUp(t, p);
      SiftUpRestoresHeap(t, p);
    }
  }

  /** When Smallest keeps slot i in place, the heap has no fault left. */
  lemma SiftDownStops(s: seq<DataPoint>, i: nat)
    requires HeapExceptDown(s, i) && Smallest(s, i) == i
    ensures IsHeap(s)
  {
    forall j | 0 < j < |s| && Parent(j) == i
      ensures s[i].priority <= s[j].priority
    {
    }
  }

  /** After one exchange of sift-down, every slot not below the chosen child is in order. */
  lemma SiftDownStepAbove(s: seq<DataPoint>, i: nat, j: nat)
    requires HeapExceptDown(s, i) && Smallest(s, i) != i
    requires 0 < j < |s| && Parent(j) != Smallest(s, i)
    ensures Swap(s, i, Smallest(s, i))[Parent(j)].priority <= Swap(s, i, Smallest(s, i))[j].priority
  {
    var c := Smallest(s, i);
    var t := Swap(s, i, c);
    if j == c {
    } else if j == i {
      assert Parent(c) == i && t[i] == s[c];
    } else if Parent(j) == i {
      assert t[Parent(j)] == s[c] && t[j] == s[j];
    } else {
      assert t[Parent(j)] == s[Parent(j)] && t[j] == s[j];
    }
  }

  /** One exchange of sift-down moves the only fault from slot i to the chosen child. */
  lemma SiftDownStep(s: seq<DataPoint>, i: nat)
    requires HeapExceptDown(s, i) && Smallest(s, i) != i
    ensures HeapExceptDown(Swap(s, i, Smallest(s, i)), Smallest(s, i))
  {
    var c := Smallest(s, i);
    var t := Swap(s, i, c);
    forall j | 0 < j < |t| && Parent(j) != c
      ensures t[Parent(j)].priority <= t[j].priority
    {
      SiftDownStepAbove(s, i, j);
    }
    forall j | 0 < j < |t| && Parent(j) == c
      ensures t[Parent(c)].priority <= t[j].priority
    {
      assert t[Parent(c)] == s[c] && t[j] == s[j];
    }
  }

  /** Sift-down repairs a heap whose only fault is slot i against its children. */
  lemma {:induction false} SiftDownRestoresHeap(s: seq<DataPoint>, i: nat)
    requires HeapExceptDown(s, i)
    ensures IsHeap(SiftDown(s, i))
    decreases |s| - i
  {
    var c := Smallest(s, i);
    if c == i {
      SiftDownStops(s, i);
    } else {
      SiftDownStep(s, i);
      SiftDownRestoresHeap(Swap(s, i, c), c);
    }
  }

  /** Enqueueing onto a heap gives a heap. */
  lemma EnqueuedPreservesHeap(s: seq<DataPoint>, x: DataPoint)
    requires IsHeap(s)
    ensures IsHeap(Enqueued(s, x))
  {
    var t := s + [x];
    assert HeapExceptUp(t, |s|) by {
      forall j | 0 < j < |t| && j != |s|
        ensures t[Parent(j)].priority <= t[j].priority
      {
        assert t[j] == s[j] && t[Parent(j)] == s[Parent(j)];
      }
    }
    SiftUpRestoresHeap(t, |s|);
  }

  /** Dequeueing from a non-empty heap gives a heap. */
  lemma DequeuedPreservesHeap(s: seq<DataPoint>)
    requires IsHeap(s) && |s| > 0
    ensures IsHeap(Dequeued(s))
  {
    var n := |s|;
    var t := Swap(s, 0, n - 1)[..n - 1];
    forall j | 0 < j < |t| && Parent(j) != 0
      ensures t[Parent(j)].priority <= t[j].priority
    {
      assert t[j] == s[j] && t[Parent(j)] == s[Parent(j)];
    }
    SiftDownRestoresHeap(t, 0);
    assert Dequeued(s) == SiftDown(t, 0);
  }

  /** Every slot of a heap is reached from the root by non-decreasing priorities. */
  lemma {:induction false} RootIsMinAt(s: seq<DataPoint>, j: nat)
    requires IsHeap(s) && j < |s|
    ensures s[0].priority <= s[j].priority
    decreases j
  {
    if 0 < j {
      RootIsMinAt(s, Parent(j));
    }
  }

  /** The root of a heap holds a minimal priority among all live elements. */
  lemma HeapRootIsMin(s: seq<DataPoint>)
    requires |s| > 0
    ensures IsHeap(s) ==> forall x | x in s :: s[0].priority <= x.priority
  {
    if IsHeap(s) {
      forall x | x in s
        ensures s[0].priority <= x.priority
      {
        var j :| 0 <= j < |s| && s[j] == x;
        RootIsMinAt(s, j);
      }
    }
  }

  /** Putting an element no larger than any other in front keeps a sequence sorted. */
  lemma PrependMinimum(x: DataPoint, r: seq<DataPoint>)
    requires SortedByPriority(r)
    requires forall y | y in r :: x.priority <= y.priority
    ensures SortedByPriority([x] + r)
  {
    var d := [x] + r;
    forall a, b | 0 <= a < b < |d|
      ensures d[a].priority <= d[b].priority
    {
      assert d[b] == r[b - 1];
      if 0 < a {
        assert d[a] == r[a - 1];
      }
    }
  }

  /**
    Dequeueing a heap until it is empty yields its elements in non-decreasing order
    of priority, each exactly as often as it was stored.
   */
  lemma {:induction false} DrainIsSorted(s: seq<DataPoint>)
    requires IsHeap(s)
    ensures SortedByPriority(Drain(s))
    ensures multiset(Drain(s)) == multiset(s)
    decreases |s|
  {
    if |s| == 0 {
      return;
    }
    var rest := Dequeued(s);
    DequeuedPreservesHeap(s);
    DequeuedIsPermutation(s);
    DrainIsSorted(rest);
    HeapRootIsMin(s);
    var tail := Drain(rest);
    forall y | y in tail
      ensures s[0].priority <= y.priority
    {
      assert y in multiset(tail);
      assert y in multiset(s);
    }
    PrependMinimum(s[0], tail);
    assert Drain(s) == [s[0]] + tail;
    assert multiset(Drain(s)) == multiset{s[0]} + multiset(tail);
  }
}
