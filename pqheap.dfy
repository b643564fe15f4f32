/**
  PQHeap: a priority queue kept as a binary min-heap in a growable array. The
  elements live in slots [0, numFilled) of `elements`, whose length is
  numAllocated. Each operation is proved against the sequence-level definitions
  of module HeapSpec.
 */
module PriorityQueue {
  import opened HeapSpec

  /** Capacity of a freshly constructed queue. */
  const INITIAL_CAPACITY: nat := 10

  /** The conditions under which PQHeap reports an error. */
  datatype Error =
    | EmptyQueue
    | InvalidIndex(index: int)
    | CapacityExceeded
    | HeapOrderViolated(parent: nat, child: nat)
    | InvalidCapacity

  /** An index that may be absent (the source's NONE sentinel). */
  datatype Option<T> = None | Some(value: T)

  /** A value, or the error that was reported instead. */
  datatype Result<T> = Success(value: T) | Failure(error: Error)

  /** A check that passes, or the error it reports. */
  datatype Outcome = Pass | Fail(error: Error)

  class PQHeap {
    var elements: array<DataPoint>
    var numAllocated: nat
    var numFilled: nat

    /** The array has the recorded capacity, which is positive and holds every live element. */
    ghost predicate Valid()
      reads this
    {
      elements.Length == numAllocated && 0 < numAllocated && numFilled <= numAllocated
    }

    /** The live elements, in slot order. */
    ghost function Contents(): seq<DataPoint>
      reads this, elements
      requires Valid()
    {
      elements[..numFilled]
    }

    /** An empty queue with INITIAL_CAPACITY zero-initialised slots. */
    constructor ()
      ensures Valid() && fresh(elements)
      ensures numAllocated == INITIAL_CAPACITY && Contents() == []
    {
      numAllocated := INITIAL_CAPACITY;
      elements := new DataPoint[INITIAL_CAPACITY](_ => DataPoint("", 0));
      numFilled := 0;
    }

    /** Moves the element at `index` towards the root while it is strictly smaller than its parent. */
    method PercolateUp(index: nat)
      requires Valid() && index < numFilled
      modifies elements
      ensures Valid()
      ensures Contents() == SiftUp(old(Contents()), index)
      ensures forall k | numFilled <= k < elements.Length :: elements[k] == old(elements[k])
      decreases index
    {
      if index == 0 {
        return;
      }
      var inputPriority := elements[index].priority;
      var parent := GetParentIndex(index).value;
      var parentPriority := elements[parent].priority;
      if inputPriority < parentPriority {
        var o := SwapElements(index, parent);
        assert o.Pass?;
        PercolateUp(parent);
      }
    }

    /**
      Moves the element at `index` towards the leaves while a child is strictly
      smaller, preferring the left child on equal priorities.
     */
    method PercolateDown(index: nat)
      requires Valid()
      modifies elements
      ensures Valid()
      ensures Contents() == SiftDown(old(Contents()), index)
      ensures forall k | numFilled <= k < elements.Length :: elements[k] == old(elements[k])
      decreases numFilled - index
    {
      var leftChild := GetLeftChildIndex(index);
      var rightChild := GetRightChildIndex(index);
      var current := index;
      if leftChild.None? && rightChild.None? {
        return;
      }
      if leftChild.Some? && elements[current].priority > elements[leftChild.value].priority {
        current := leftChild.value;
      }
      if rightChild.Some? && elements[current].priority > elements[rightChild.value].priority {
        current := rightChild.value;
      }
      assert current == Smallest(Contents(), index);
      if current != index {
        var o := SwapElements(index, current);
        assert o.Pass?;
        PercolateDown(current);
      }
    }

    /** Replaces the array by one of twice the capacity holding the same live prefix. */
    method ResizeArray()
      requires Valid()
      modifies this
      ensures Valid() && fresh(elements)
      ensures numAllocated == 2 * old(numAllocated) && numFilled == old(numFilled)
      ensures Contents() == old(Contents())
    {
      var largerArray := new DataPoint[numAllocated * 2];
      for i := 0 to numFilled
        invariant largerArray[..i] == elements[..i]
        modifies largerArray
      {
        largerArray[i] := elements[i];
      }
      elements := largerArray;
      numAllocated := numAllocated * 2;
    }

    /**
      Adds `elem`, doubling the capacity first when the array is full; on a heap the
      result is again a heap holding one more copy of `elem`.
     */
    method Enqueue(elem: DataPoint)
      requires Valid()
      modifies this, elements
      ensures Valid()
      ensures Contents() == Enqueued(old(Contents()), elem)
      ensures |Contents()| == old(|Contents()|) + 1
      ensures multiset(Contents()) == old(multiset(Contents())) + multiset{elem}
      ensures old(IsHeap(Contents())) ==> IsHeap(Contents())
      ensures old(numFilled) < old(numAllocated) ==> numAllocated == old(numAllocated) && elements == old(elements)
      ensures old(numFilled) >= old(numAllocated) ==> numAllocated == 2 * old(numAllocated) && fresh(elements)
    {
      if Size() >= numAllocated {
        ResizeArray();
      }
      elements[Size()] := elem;
      numFilled := numFilled + 1;
      assert Contents() == old(Contents()) + [elem];
      var index := Size() - 1;
      PercolateUp(index);
      EnqueuedIsPermutation(old(Contents()), elem);
      if old(IsHeap(Contents())) {
        EnqueuedPreservesHeap(old(Contents()), elem);
      }
    }

    /** The front element, which on a heap has minimal priority; an error when empty. */
    function Peek(): (r: Result<DataPoint>)
      reads this, elements
      requires Valid()
      ensures r.Failure? <==> Contents() == []
      ensures r.Failure? ==> r.error == EmptyQueue
      ensures r.Success? ==> r.value == Contents()[0]
      ensures r.Success? && IsHeap(Contents()) ==> forall x | x in Contents() :: r.value.priority <= x.priority
    {
      if IsEmpty() then Failure(EmptyQueue)
      else
        HeapRootIsMin(Contents());
        Success(elements[0])
    }

    /**
      Removes and returns the front element; an error, with nothing changed, when
      empty. The removed element is left in the slot just past the live range.
     */
    method Dequeue() returns (r: Result<DataPoint>)
      requires Valid()
      modifies this, elements
      ensures Valid() && elements == old(elements) && numAllocated == old(numAllocated)
      ensures old(numFilled) == 0 ==> r == Failure(EmptyQueue) && unchanged(this) && unchanged(elements)
      ensures old(numFilled) > 0 ==> r == Success(old(Contents()[0]))
      ensures old(numFilled) > 0 ==> Contents() == Dequeued(old(Contents())) && elements[numFilled] == r.value
      ensures old(numFilled) > 0 ==> |Contents()| == old(|Contents()|) - 1
      ensures old(numFilled) > 0 ==> multiset(Contents()) == old(multiset(Contents())) - multiset{r.value}
      ensures old(IsHeap(Contents())) ==> IsHeap(Contents())
      ensures old(IsHeap(Contents())) && r.Success? ==> forall x | x in old(Contents()) :: r.value.priority <= x.priority
    {
      if IsEmpty() {
        return Failure(EmptyQueue);
      }
      ghost var before := Contents();
      r := Peek();
      RemoveFront();
      DequeuedIsPermutation(before);
      if IsHeap(before) {
        DequeuedPreservesHeap(before);
      }
    }

    /**
      The body of a non-empty dequeue after the front has been read: the front
      is swapped with the last live element, the live range shrinks by one and
      the new root percolates down.
    */
    method RemoveFront()
      requires Valid() && 0 < numFilled
      modifies this, elements
      ensures Valid() && elements == old(elements) && numAllocated == old(numAllocated)
      ensures Contents() == Dequeued(old(Contents())) && elements[numFilled] == old(Contents()[0])
    {
      ghost var before := Contents();
      var o := SwapElements(0, Size() - 1);
      assert o.Pass?;
      ghost var swapped := Contents();
      assert swapped == Swap(before, 0, |before| - 1) && elements[numFilled - 1] == before[0];
      numFilled := numFilled - 1;
      assert Contents() == swapped[..numFilled];
      PercolateDown(0);
    }

    /** True exactly when no element is live. */
    function IsEmpty(): (r: bool)
      reads this, elements
      requires Valid()
      ensures r <==> Contents() == []
    {
      Size() == 0
    }

    /** The number of live elements. */
    function Size(): (r: nat)
      reads this, elements
      requires Valid()
      ensures r == |Contents()|
    {
      numFilled
    }

    /** Forgets every element; the array and its capacity stay. */
    method Clear()
      requires Valid()
      modifies this
      ensures Valid() && Contents() == []
      ensures elements == old(elements) && numAllocated == old(numAllocated)
    {
      numFilled := 0;
    }

    /** The parent slot of `child`, absent for the root; `child` is one of its children. */
    function GetParentIndex(child: nat): (r: Option<nat>)
      ensures r.None? <==> child == 0
      ensures r.Some? ==> r.value < child && (child == 2 * r.value + 1 || child == 2 * r.value + 2)
    {
      if child != 0 then Some(Parent(child)) else None
    }

    /** The left child slot of `parent`, present only inside the live range. */
    function GetLeftChildIndex(parent: nat): (r: Option<nat>)
      reads this
      ensures r.Some? <==> 2 * parent + 1 < numFilled
      ensures r.Some? ==> r.value == 2 * parent + 1 && GetParentIndex(r.value) == Some(parent)
    {
      var leftChild := 2 * parent + 1;
      if leftChild >= numFilled then None else Some(leftChild)
    }

    /** The right child slot of `parent`, present only inside the live range. */
    function GetRightChildIndex(parent: nat): (r: Option<nat>)
      reads this
      ensures r.Some? <==> 2 * parent + 2 < numFilled
      ensures r.Some? ==> r.value == 2 * parent + 2 && GetParentIndex(r.value) == Some(parent)
    {
      var rightChild := 2 * parent + 2;
      if rightChild >= numFilled then None else Some(rightChild)
    }

    /** Passes exactly the indices of live slots. */
    function ValidateIndex(index: int): (o: Outcome)
      reads this
      ensures o.Pass? <==> 0 <= index < numFilled
      ensures o.Fail? ==> o.error == InvalidIndex(index)
    {
      if index < 0 || index >= numFilled then Fail(InvalidIndex(index)) else Pass
    }

    /**
      Exchanges two live slots after validating both indices; with an invalid index
      it reports the first failing one and changes nothing.
     */
    method SwapElements(indexA: int, indexB: int) returns (o: Outcome)
      requires Valid()
      modifies elements
      ensures Valid()
      ensures o.Pass? <==> ValidateIndex(indexA).Pass? && ValidateIndex(indexB).Pass?
      ensures o.Fail? ==> o == (if ValidateIndex(indexA).Fail? then ValidateIndex(indexA) else ValidateIndex(indexB))
      ensures o.Fail? ==> elements[..] == old(elements[..])
      ensures o.Pass? ==> Contents() == Swap(old(Contents()), indexA, indexB)
      ensures forall k | numFilled <= k < elements.Length :: elements[k] == old(elements[k])
    {
      o := ValidateIndex(indexA);
      if o.Fail? {
        return;
      }
      o := ValidateIndex(indexB);
      if o.Fail? {
        return;
      }
      var tmp := elements[indexA];
      elements[indexA] := elements[indexB];
      elements[indexB] := tmp;
    }

    /**
      Reports CapacityExceeded when more slots are live than allocated, otherwise the
      first slot, scanning upwards, whose parent has a larger priority; passes exactly
      when the live prefix is a heap.
     */
    method DebugConfirmInternalArray() returns (o: Outcome)
      requires elements.Length == numAllocated
      ensures o.Pass? <==> numFilled <= numAllocated && IsHeap(elements[..numFilled])
      ensures o == Fail(CapacityExceeded) <==> numFilled > numAllocated
      ensures o.Fail? ==> o.error == CapacityExceeded || o.error.HeapOrderViolated?
      ensures o.Fail? && o.error.HeapOrderViolated? ==>
        var p, c := o.error.parent, o.error.child;
        0 < c < numFilled <= numAllocated && p == Parent(c) &&
        elements[p].priority > elements[c].priority &&
        forall j :: 0 < j < c ==> elements[Parent(j)].priority <= elements[j].priority
    {
      if numFilled > numAllocated {
        return Fail(CapacityExceeded);
      }
      var i := 1;
      while i < numFilled
        invariant 1 <= i
        invariant forall j :: 0 < j < i && j < numFilled ==> elements[Parent(j)].priority <= elements[j].priority
      {
        var parent := GetParentIndex(i);
        if parent.Some? && elements[parent.value].priority > elements[i].priority {
          return Fail(HeapOrderViolated(parent.value, i));
        }
        i := i + 1;
      }
      return Pass;
    }

    /** A copy of the live elements, in slot order. */
    method DebugGetInternalArrayContents() returns (v: seq<DataPoint>)
      requires Valid()
      ensures v == Contents()
    {
      v := [];
      var i := 0;
      while i < Size()
        invariant i <= numFilled
        invariant v == elements[..i]
      {
        v := v + [elements[i]];
        i := i + 1;
      }
    }

    /**
      Installs `v` as the live contents of a fresh array of `capacity` slots and then
      confirms heap order; rejects, changing nothing, a capacity that is zero or
      smaller than |v|.
     */
    method DebugSetInternalArrayContents(v: seq<DataPoint>, capacity: int) returns (o: Outcome)
      requires Valid()
      modifies this
      ensures (|v| > capacity || capacity == 0) ==> o == Fail(InvalidCapacity) && unchanged(this)
      ensures !(|v| > capacity || capacity == 0) ==>
        Valid() && fresh(elements) && numAllocated == capacity && Contents() == v &&
        (o.Pass? <==> IsHeap(v)) && (o.Fail? ==> o.error.HeapOrderViolated?)
    {
      if |v| > capacity || capacity == 0 {
        return Fail(InvalidCapacity);
      }
      elements := new DataPoint[capacity];
      numAllocated := capacity;
      numFilled := |v|;
      for i := 0 to |v|
        invariant elements[..i] == v[..i]
        modifies elements
      {
        elements[i] := v[i];
      }
      assert elements[..numFilled] == v;
      o := DebugConfirmInternalArray();
    }
  }
}
