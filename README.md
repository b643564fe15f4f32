# PQHeap: a binary min-heap priority queue

`PQHeap` keeps `DataPoint`s (a name and an integer priority) in a binary min-heap
that lives in a growable array. The live elements occupy slots `[0, numFilled)`
of an array with `numAllocated` slots. The parent of slot `i > 0` is `(i-1)/2`
and its children are `2i+1` and `2i+2`. The heap property says that no element
has a smaller priority than its parent.

- `enqueue` writes the new element just past the live range and percolates it
  up. When the array is full (`size() >= capacity`) it first doubles the
  capacity.
- `dequeue` reads the front element and swaps it with the last live one. It
  then shrinks the live range by one and percolates the new root down.
- `percolateDown` compares the left child first. It moves to the right child
  only when the right child is strictly smaller than the best element so far,
  so equal priorities favour the left child.
- Errors become values: `Result` (for `peek`/`dequeue`) and `Outcome` (for
  the index check, the swap and the debug routines).

The project has three modules:

- `HeapSpec` (heap_spec.dfy) defines the algorithm on sequences.
  - `SiftUp` and `SiftDown` make exactly the comparisons and exchanges of the
    recursive percolate routines. `Enqueued`, `Dequeued` and `Drain` are built
    on them.
  - It proves the permutation lemmas and the heap-restoring lemmas, that the
    root is the minimum, and that repeated dequeues come out in priority order.
- `PriorityQueue` (pqheap.dfy) models the `PQHeap` class over a Dafny `array`.
  Every state-changing method is proved against the `HeapSpec` function for
  that operation (`Contents() == SiftUp(old(Contents()), index)` and so on).
- `Scenarios` (scenarios.dfy) drives a `PQHeap` through the calls of the test
  cases at the end of the source file. It proves the internal-array snapshots
  that those tests compare.

The model follows the code. The doc comment above `peek` (pqheap.cpp:142-149)
describes a sorted-array layout with the front at the last filled slot. The code
returns slot 0 of the heap, and the model does the same.

## Model

| member | source | states |
|---|---|---|
| HeapSpec.Parent | pqheap.cpp:208-213 | for a non-root slot, the parent index is smaller and the slot is its left or right child |
| HeapSpec.Swap | pqheap.cpp:252-258 | exchanging two slots keeps the length, puts each element in the other's slot and leaves every other slot alone |
| HeapSpec.SwapIsPermutation | pqheap.cpp:252-258 | an exchange of two slots keeps the multiset of elements |
| HeapSpec.Smallest | pqheap.cpp:83-90 | the slot percolateDown moves to is the slot itself or one of its children; a child is chosen only when strictly smaller; the result is no larger than either existing child; the right child is chosen only when strictly smaller than the left |
| HeapSpec.SiftUpIsPermutation | pqheap.cpp:45-63 | percolating up only rearranges the elements (same multiset) |
| HeapSpec.SiftDownIsPermutation | pqheap.cpp:72-100 | percolating down only rearranges the elements (same multiset) |
| HeapSpec.EnqueuedIsPermutation | pqheap.cpp:128-140 | after enqueue, the live multiset is the old one plus the new element |
| HeapSpec.DequeuedIsPermutation | pqheap.cpp:161-175 | after dequeue, the live multiset is the old one minus the front element |
| HeapSpec.SiftUpRestoresHeap | pqheap.cpp:45-63 | a sequence that is a heap except that slot i may be smaller than its parent becomes a heap after percolating up from i |
| HeapSpec.SiftDownStops | pqheap.cpp:79-81 | when no child of i is strictly smaller, a heap broken only at i is already a heap (the base cases of percolateDown) |
| HeapSpec.SiftDownStepAbove | pqheap.cpp:94-96 | one exchange with the smaller child keeps the heap order of every parent/child pair except those at the child's slot |
| HeapSpec.SiftDownStep | pqheap.cpp:94-96 | after one exchange with the smaller child, the sequence is a heap broken only at that child's slot |
| HeapSpec.SiftDownRestoresHeap | pqheap.cpp:72-100 | a sequence that is a heap except that slot i may be larger than its children becomes a heap after percolating down from i |
| HeapSpec.EnqueuedPreservesHeap | pqheap.cpp:128-140 | enqueue on a heap yields a heap |
| HeapSpec.DequeuedPreservesHeap | pqheap.cpp:161-175 | dequeue on a non-empty heap yields a heap |
| HeapSpec.RootIsMinAt | pqheap.cpp:278-282 | in a heap, the root's priority is at most that of any slot |
| HeapSpec.HeapRootIsMin | pqheap.cpp:150-155 | in a non-empty heap, slot 0 holds a minimal priority among all elements |
| HeapSpec.PrependMinimum | pqheap.cpp:167-174 | putting an element no larger than all of a sorted sequence in front keeps it sorted |
| HeapSpec.DrainIsSorted | pqheap.cpp:161-175 | dequeuing a heap until it is empty returns its elements in non-decreasing priority order, and exactly its elements |
| PriorityQueue.PQHeap.constructor | pqheap.cpp:23-26 | a new queue has INITIAL_CAPACITY (10) slots and no live elements |
| PriorityQueue.PQHeap.PercolateUp | pqheap.cpp:45-63 | the live contents become SiftUp of the old contents at index; slots past the live range are untouched; every swap it makes passes index validation |
| PriorityQueue.PQHeap.PercolateDown | pqheap.cpp:72-100 | the live contents become SiftDown of the old contents at index; slots past the live range are untouched; every swap it makes passes index validation |
| PriorityQueue.PQHeap.ResizeArray | pqheap.cpp:107-121 | a fresh array of twice the capacity holds the same live elements in the same order |
| PriorityQueue.PQHeap.Enqueue | pqheap.cpp:128-140 | the contents become Enqueued(old, elem): one longer, the old multiset plus elem, and still a heap if they were one; capacity doubles exactly when the array was full |
| PriorityQueue.PQHeap.Peek | pqheap.cpp:150-155 | fails with EmptyQueue exactly when empty; otherwise returns slot 0, which on a heap has minimal priority; reads but changes nothing |
| PriorityQueue.PQHeap.Dequeue | pqheap.cpp:161-175 | on an empty queue: EmptyQueue, with nothing changed; otherwise returns the old front, which on a heap has minimal priority; the contents become Dequeued(old), one shorter, the old multiset minus the front, and still a heap if they were one |
| PriorityQueue.PQHeap.RemoveFront | pqheap.cpp:169-171 | swapping the front with the last live element, shrinking the range and percolating down yields Dequeued(old), and the old front sits just past the live range |
| PriorityQueue.PQHeap.IsEmpty | pqheap.cpp:180-182 | true exactly when there are no live elements |
| PriorityQueue.PQHeap.Size | pqheap.cpp:188-190 | the number of live elements |
| PriorityQueue.PQHeap.Clear | pqheap.cpp:199-200 | no live elements remain; the array and the capacity are unchanged |
| PriorityQueue.PQHeap.GetParentIndex | pqheap.cpp:208-213 | absent exactly for the root; otherwise a smaller index of which the argument is the left or right child |
| PriorityQueue.PQHeap.GetLeftChildIndex | pqheap.cpp:221-229 | present exactly when 2p+1 is a live slot; then it is 2p+1, and its parent is p |
| PriorityQueue.PQHeap.GetRightChildIndex | pqheap.cpp:237-244 | present exactly when 2p+2 is a live slot; then it is 2p+2, and its parent is p |
| PriorityQueue.PQHeap.ValidateIndex | pqheap.cpp:260-262 | passes exactly the indices in [0, size); otherwise reports InvalidIndex with that index |
| PriorityQueue.PQHeap.SwapElements | pqheap.cpp:252-258 | succeeds exactly when both indices are valid, and then exchanges the two live slots; otherwise reports the first invalid index and changes nothing |
| PriorityQueue.PQHeap.DebugConfirmInternalArray | pqheap.cpp:268-283 | passes exactly when the count fits the capacity and the live prefix is a heap; reports CapacityExceeded exactly when the count exceeds the capacity; otherwise names the first slot whose parent has a larger priority |
| PriorityQueue.PQHeap.DebugGetInternalArrayContents | pqheap.cpp:285-292 | returns the live elements in slot order |
| PriorityQueue.PQHeap.DebugSetInternalArrayContents | pqheap.cpp:294-305 | rejects a zero capacity or one below the vector's size, changing nothing; otherwise installs the vector as the live contents of a fresh array of that capacity, and the final check passes exactly when the vector is a heap |
| Scenarios.DequeueOnEmptyScenario | pqheap.cpp:314-357 | enqueueing R4 A5 B3 K7 G2 V9 T1 O8 S6 gives [T1 B3 G2 S6 A5 V9 R4 O8 K7]; the first dequeue gives [G2 B3 R4 S6 A5 V9 K7 O8], the second [B3 A5 R4 S6 O8 V9 K7]; six more leave [V9], one more leaves [], and the next fails with EmptyQueue |
| Scenarios.EnqueuePercolateUpScenario | pqheap.cpp:406-445 | enqueueing Z0 onto the nine-element heap gives [Z0 T1 G2 S6 B3 V9 R4 O8 K7 A5] |
| Scenarios.WriteupScenario | pqheap.cpp:447-474 | heap order is confirmed on the empty queue and after every enqueue of the writeup input; the contents are [T1 B3 G2 S6 A5 V9 R4 O8 K7], and [B3 A5 R4 S6 O8 V9 K7] after two dequeues |

## Left out

- The `error(...)` calls and their message text (pqheap.cpp:152, 163, 261, 272, 281, 296) do not abort here. The model returns an `Error` value instead, through `Result` or `Outcome`, and the callers inside the class prove that they never receive one.
- The destructor and `delete[]` are left out (pqheap.cpp:33-37, 115, 298). Allocation is a fresh Dafny array, and memory is garbage-collected.
- The array cells a fresh array holds before they are written are left out. Dafny initialises them: the constructor fills them with `DataPoint("", 0)`, as the zeroing `new DataPoint[...]()` does. `ResizeArray` and `DebugSetInternalArrayContents` use the default `DataPoint`. No contract reads those cells.
- C++ `int` overflow is not modelled: indices, counts and capacities are unbounded naturals. Doubling the capacity or computing `2*p+2` cannot overflow in the model.
- `Vector<DataPoint>` is modelled as `seq<DataPoint>`. The `SimpleTest` macros are not modelled; each test case is a `Scenarios` method whose postconditions are its `EXPECT_EQUAL`/`EXPECT_ERROR` checks.
- The test "Dequeue percolate down" (pqheap.cpp:360-404) is not modelled separately. It repeats the calls and snapshots of "Dequeueue on empty pq" without the final failing dequeue, so `Scenarios.DequeueOnEmptyScenario` covers it.
- PriorityQueue.PQHeap.RemoveFront is not a separate routine in the source. It is lines 169-171 of `dequeue`, put in a method of its own so that `Dequeue` composes the permutation and heap lemmas over it.
- The `NONE` sentinel (`-1`) is modelled as `Option<nat>`. `percolateDown` tests the two child indices for `NONE`, and the model tests them with `None?`.
