/**
  The scenarios exercised by the PQHeap test cases, as methods that drive a PQHeap
  through the same calls and return the snapshots the tests compare. The helper
  lemmas compute single enqueue and dequeue steps of HeapSpec on those concrete
  contents, one exchange at a time.
 */
module Scenarios {
  import opened HeapSpec
  import opened PriorityQueue

  /** Enqueue number 1 of the writeup input. */
  lemma BuildStep1()
    ensures Enqueued([], DataPoint("R", 4))
         == [DataPoint("R", 4)]
  {
  }

  /** Enqueue number 2 of the writeup input. */
  lemma BuildStep2()
    ensures Enqueued([DataPoint("R", 4)], DataPoint("A", 5))
         == [DataPoint("R", 4), DataPoint("A", 5)]
  {
  }

  /** Enqueue number 3 of the writeup input. */
  lemma BuildStep3()
    ensures Enqueued([DataPoint("R", 4), DataPoint("A", 5)], DataPoint("B", 3))
         == [DataPoint("B", 3), DataPoint("A", 5), DataPoint("R", 4)]
  {
    assert [DataPoint("R", 4), DataPoint("A", 5)] + [DataPoint("B", 3)]
        == [DataPoint("R", 4), DataPoint("A", 5), DataPoint("B", 3)];
    assert Swap([DataPoint("R", 4), DataPoint("A", 5), DataPoint("B", 3)], 2, 0)
        == [DataPoint("B", 3), DataPoint("A", 5), DataPoint("R", 4)];
  }

  /** Enqueue number 4 of the writeup input. */
  lemma BuildStep4()
    ensures Enqueued([DataPoint("B", 3), DataPoint("A", 5), DataPoint("R", 4)], DataPoint("K", 7))
         == [DataPoint("B", 3), DataPoint("A", 5), DataPoint("R", 4), DataPoint("K", 7)]
  {
  }

  /** Enqueue number 5 of the writeup input. */
  lemma BuildStep5()
    ensures Enqueued([DataPoint("B", 3), DataPoint("A", 5), DataPoint("R", 4), DataPoint("K", 7)], DataPoint("G", 2))
         == [DataPoint("G", 2), DataPoint("B", 3), DataPoint("R", 4), DataPoint("K", 7), DataPoint("A", 5)]
  {
    assert [DataPoint("B", 3), DataPoint("A", 5), DataPoint("R", 4), DataPoint("K", 7)] + [DataPoint("G", 2)]
        == [DataPoint("B", 3), DataPoint("A", 5), DataPoint("R", 4), DataPoint("K", 7), DataPoint("G", 2)];
    assert Swap([DataPoint("B", 3), DataPoint("A", 5), DataPoint("R", 4), DataPoint("K", 7), DataPoint("G", 2)], 4, 1)
        == [DataPoint("B", 3), DataPoint("G", 2), DataPoint("R", 4), DataPoint("K", 7), DataPoint("A", 5)];
    assert Swap([DataPoint("B", 3), DataPoint("G", 2), DataPoint("R", 4), DataPoint("K", 7), DataPoint("A", 5)], 1, 0)
        == [DataPoint("G", 2), DataPoint("B", 3), DataPoint("R", 4), DataPoint("K", 7), DataPoint("A", 5)];
  }

  /** Enqueue number 6 of the writeup input. */
  lemma BuildStep6()
    ensures Enqueued([DataPoint("G", 2), DataPoint("B", 3), DataPoint("R", 4), DataPoint("K", 7), DataPoint("A", 5)], DataPoint("V", 9))
         == [DataPoint("G", 2), DataPoint("B", 3), DataPoint("R", 4), DataPoint("K", 7), DataPoint("A", 5), DataPoint("V", 9)]
  {
  }

  /** Enqueue number 7 of the writeup input. */
  lemma BuildStep7()
    ensures Enqueued([DataPoint("G", 2), DataPoint("B", 3), DataPoint("R", 4), DataPoint("K", 7), DataPoint("A", 5), DataPoint("V", 9)], DataPoint("T", 1))
         == [DataPoint("T", 1), DataPoint("B", 3), DataPoint("G", 2), DataPoint("K", 7), DataPoint("A", 5), DataPoint("V", 9), DataPoint("R", 4)]
  {
    assert [DataPoint("G", 2), DataPoint("B", 3), DataPoint("R", 4), DataPoint("K", 7), DataPoint("A", 5), DataPoint("V", 9)] + [DataPoint("T", 1)]
        == [DataPoint("G", 2), DataPoint("B", 3), DataPoint("R", 4), DataPoint("K", 7), DataPoint("A", 5), DataPoint("V", 9), DataPoint("T", 1)];
    assert Swap([DataPoint("G", 2), DataPoint("B", 3), DataPoint("R", 4), DataPoint("K", 7), DataPoint("A", 5), DataPoint("V", 9), DataPoint("T", 1)], 6, 2)
        == [DataPoint("G", 2), DataPoint("B", 3), DataPoint("T", 1), DataPoint("K", 7), DataPoint("A", 5), DataPoint("V", 9), DataPoint("R", 4)];
    assert Swap([DataPoint("G", 2), DataPoint("B", 3), DataPoint("T", 1), DataPoint("K", 7), DataPoint("A", 5), DataPoint("V", 9), DataPoint("R", 4)], 2, 0)
        == [DataPoint("T", 1), DataPoint("B", 3), DataPoint("G", 2), DataPoint("K", 7), DataPoint("A", 5), DataPoint("V", 9), DataPoint("R", 4)];
  }

  /** Enqueue number 8 of the writeup input. */
  lemma BuildStep8()
    ensures Enqueued([DataPoint("T", 1), DataPoint("B", 3), DataPoint("G", 2), DataPoint("K", 7), DataPoint("A", 5), DataPoint("V", 9), DataPoint("R", 4)], DataPoint("O", 8))
         == [DataPoint("T", 1), DataPoint("B", 3), DataPoint("G", 2), DataPoint("K", 7), DataPoint("A", 5), DataPoint("V", 9), DataPoint("R", 4), DataPoint("O", 8)]
  {
  }

  /** Enqueue number 9 of the writeup input. */
  lemma BuildStep9()
    ensures Enqueued([DataPoint("T", 1), DataPoint("B", 3), DataPoint("G", 2), DataPoint("K", 7), DataPoint("A", 5), DataPoint("V", 9), DataPoint("R", 4), DataPoint("O", 8)], DataPoint("S", 6))
         == [DataPoint("T", 1), DataPoint("B", 3), DataPoint("G", 2), DataPoint("S", 6), DataPoint("A", 5), DataPoint("V", 9), DataPoint("R", 4), DataPoint("O", 8), DataPoint("K", 7)]
  {
    assert [DataPoint("T", 1), DataPoint("B", 3), DataPoint("G", 2), DataPoint("K", 7), DataPoint("A", 5), DataPoint("V", 9), DataPoint("R", 4), DataPoint("O", 8)] + [DataPoint("S", 6)]
        == [DataPoint("T", 1), DataPoint("B", 3), DataPoint("G", 2), DataPoint("K", 7), DataPoint("A", 5), DataPoint("V", 9), DataPoint("R", 4), DataPoint("O", 8), DataPoint("S", 6)];
    assert Swap([DataPoint("T", 1), DataPoint("B", 3), DataPoint("G", 2), DataPoint("K", 7), DataPoint("A", 5), DataPoint("V", 9), DataPoint("R", 4), DataPoint("O", 8), DataPoint("S", 6)], 8, 3)
        == [DataPoint("T", 1), DataPoint("B", 3), DataPoint("G", 2), DataPoint("S", 6), DataPoint("A", 5), DataPoint("V", 9), DataPoint("R", 4), DataPoint("O", 8), DataPoint("K", 7)];
  }

  /** Enqueueing a new minimum onto the nine-element heap. */
  lemma BuildStepZ()
    ensures Enqueued([DataPoint("T", 1), DataPoint("B", 3), DataPoint("G", 2), DataPoint("S", 6), DataPoint("A", 5), DataPoint("V", 9), DataPoint("R", 4), DataPoint("O", 8), DataPoint("K", 7)], DataPoint("Z", 0))
         == [DataPoint("Z", 0), DataPoint("T", 1), DataPoint("G", 2), DataPoint("S", 6), DataPoint("B", 3), DataPoint("V", 9), DataPoint("R", 4), DataPoint("O", 8), DataPoint("K", 7), DataPoint("A", 5)]
  {
    assert [DataPoint("T", 1), DataPoint("B", 3), DataPoint("G", 2), DataPoint("S", 6), DataPoint("A", 5), DataPoint("V", 9), DataPoint("R", 4), DataPoint("O", 8), DataPoint("K", 7)] + [DataPoint("Z", 0)]
        == [DataPoint("T", 1), DataPoint("B", 3), DataPoint("G", 2), DataPoint("S", 6), DataPoint("A", 5), DataPoint("V", 9), DataPoint("R", 4), DataPoint("O", 8), DataPoint("K", 7), DataPoint("Z", 0)];
    assert Swap([DataPoint("T", 1), DataPoint("B", 3), DataPoint("G", 2), DataPoint("S", 6), DataPoint("A", 5), DataPoint("V", 9), DataPoint("R", 4), DataPoint("O", 8), DataPoint("K", 7), DataPoint("Z", 0)], 9, 4)
        == [DataPoint("T", 1), DataPoint("B", 3), DataPoint("G", 2), DataPoint("S", 6), DataPoint("Z", 0), DataPoint("V", 9), DataPoint("R", 4), DataPoint("O", 8), DataPoint("K", 7), DataPoint("A", 5)];
    assert Swap([DataPoint("T", 1), DataPoint("B", 3), DataPoint("G", 2), DataPoint("S", 6), DataPoint("Z", 0), DataPoint("V", 9), DataPoint("R", 4), DataPoint("O", 8), DataPoint("K", 7), DataPoint("A", 5)], 4, 1)
        == [DataPoint("T", 1), DataPoint("Z", 0), DataPoint("G", 2), DataPoint("S", 6), DataPoint("B", 3), DataPoint("V", 9), DataPoint("R", 4), DataPoint("O", 8), DataPoint("K", 7), DataPoint("A", 5)];
    assert Swap([DataPoint("T", 1), DataPoint("Z", 0), DataPoint("G", 2), DataPoint("S", 6), DataPoint("B", 3), DataPoint("V", 9), DataPoint("R", 4), DataPoint("O", 8), DataPoint("K", 7), DataPoint("A", 5)], 1, 0)
        == [DataPoint("Z", 0), DataPoint("T", 1), DataPoint("G", 2), DataPoint("S", 6), DataPoint("B", 3), DataPoint("V", 9), DataPoint("R", 4), DataPoint("O", 8), DataPoint("K", 7), DataPoint("A", 5)];
  }

  /** Dequeue number 1 when draining the writeup heap. */
  lemma DrainStep1()
    ensures Dequeued([DataPoint("T", 1), DataPoint("B", 3), DataPoint("G", 2), DataPoint("S", 6), DataPoint("A", 5), DataPoint("V", 9), DataPoint("R", 4), DataPoint("O", 8), DataPoint("K", 7)])
         == [DataPoint("G", 2), DataPoint("B", 3), DataPoint("R", 4), DataPoint("S", 6), DataPoint("A", 5), DataPoint("V", 9), DataPoint("K", 7), DataPoint("O", 8)]
  {
    assert Swap([DataPoint("T", 1), DataPoint("B", 3), DataPoint("G", 2), DataPoint("S", 6), DataPoint("A", 5), DataPoint("V", 9), DataPoint("R", 4), DataPoint("O", 8), DataPoint("K", 7)], 0, 8)[..8]
        == [DataPoint("K", 7), DataPoint("B", 3), DataPoint("G", 2), DataPoint("S", 6), DataPoint("A", 5), DataPoint("V", 9), DataPoint("R", 4), DataPoint("O", 8)];
    assert Smallest([DataPoint("K", 7), DataPoint("B", 3), DataPoint("G", 2), DataPoint("S", 6), DataPoint("A", 5), DataPoint("V", 9), DataPoint("R", 4), DataPoint("O", 8)], 0) == 2;
    assert Swap([DataPoint("K", 7), DataPoint("B", 3), DataPoint("G", 2), DataPoint("S", 6), DataPoint("A", 5), DataPoint("V", 9), DataPoint("R", 4), DataPoint("O", 8)], 0, 2)
        == [DataPoint("G", 2), DataPoint("B", 3), DataPoint("K", 7), DataPoint("S", 6), DataPoint("A", 5), DataPoint("V", 9), DataPoint("R", 4), DataPoint("O", 8)];
    assert Smallest([DataPoint("G", 2), DataPoint("B", 3), DataPoint("K", 7), DataPoint("S", 6), DataPoint("A", 5), DataPoint("V", 9), DataPoint("R", 4), DataPoint("O", 8)], 2) == 6;
    assert Swap([DataPoint("G", 2), DataPoint("B", 3), DataPoint("K", 7), DataPoint("S", 6), DataPoint("A", 5), DataPoint("V", 9), DataPoint("R", 4), DataPoint("O", 8)], 2, 6)
        == [DataPoint("G", 2), DataPoint("B", 3), DataPoint("R", 4), DataPoint("S", 6), DataPoint("A", 5), DataPoint("V", 9), DataPoint("K", 7), DataPoint("O", 8)];
  }

  /** Dequeue number 2 when draining the writeup heap. */
  lemma DrainStep2()
    ensures Dequeued([DataPoint("G", 2), DataPoint("B", 3), DataPoint("R", 4), DataPoint("S", 6), DataPoint("A", 5), DataPoint("V", 9), DataPoint("K", 7), DataPoint("O", 8)])
         == [DataPoint("B", 3), DataPoint("A", 5), DataPoint("R", 4), DataPoint("S", 6), DataPoint("O", 8), DataPoint("V", 9), DataPoint("K", 7)]
  {
    assert Swap([DataPoint("G", 2), DataPoint("B", 3), DataPoint("R", 4), DataPoint("S", 6), DataPoint("A", 5), DataPoint("V", 9), DataPoint("K", 7), DataPoint("O", 8)], 0, 7)[..7]
        == [DataPoint("O", 8), DataPoint("B", 3), DataPoint("R", 4), DataPoint("S", 6), DataPoint("A", 5), DataPoint("V", 9), DataPoint("K", 7)];
    assert Smallest([DataPoint("O", 8), DataPoint("B", 3), DataPoint("R", 4), DataPoint("S", 6), DataPoint("A", 5), DataPoint("V", 9), DataPoint("K", 7)], 0) == 1;
    assert Swap([DataPoint("O", 8), DataPoint("B", 3), DataPoint("R", 4), DataPoint("S", 6), DataPoint("A", 5), DataPoint("V", 9), DataPoint("K", 7)], 0, 1)
        == [DataPoint("B", 3), DataPoint("O", 8), DataPoint("R", 4), DataPoint("S", 6), DataPoint("A", 5), DataPoint("V", 9), DataPoint("K", 7)];
    assert Smallest([DataPoint("B", 3), DataPoint("O", 8), DataPoint("R", 4), DataPoint("S", 6), DataPoint("A", 5), DataPoint("V", 9), DataPoint("K", 7)], 1) == 4;
    assert Swap([DataPoint("B", 3), DataPoint("O", 8), DataPoint("R", 4), DataPoint("S", 6), DataPoint("A", 5), DataPoint("V", 9), DataPoint("K", 7)], 1, 4)
        == [DataPoint("B", 3), DataPoint("A", 5), DataPoint("R", 4), DataPoint("S", 6), DataPoint("O", 8), DataPoint("V", 9), DataPoint("K", 7)];
  }

  /** Dequeue number 3 when draining the writeup heap. */
  lemma DrainStep3()
    ensures Dequeued([DataPoint("B", 3), DataPoint("A", 5), DataPoint("R", 4), DataPoint("S", 6), DataPoint("O", 8), DataPoint("V", 9), DataPoint("K", 7)])
         == [DataPoint("R", 4), DataPoint("A", 5), DataPoint("K", 7), DataPoint("S", 6), DataPoint("O", 8), DataPoint("V", 9)]
  {
    assert Swap([DataPoint("B", 3), DataPoint("A", 5), DataPoint("R", 4), DataPoint("S", 6), DataPoint("O", 8), DataPoint("V", 9), DataPoint("K", 7)], 0, 6)[..6]
        == [DataPoint("K", 7), DataPoint("A", 5), DataPoint("R", 4), DataPoint("S", 6), DataPoint("O", 8), DataPoint("V", 9)];
    assert Smallest([DataPoint("K", 7), DataPoint("A", 5), DataPoint("R", 4), DataPoint("S", 6), DataPoint("O", 8), DataPoint("V", 9)], 0) == 2;
    assert Swap([DataPoint("K", 7), DataPoint("A", 5), DataPoint("R", 4), DataPoint("S", 6), DataPoint("O", 8), DataPoint("V", 9)], 0, 2)
        == [DataPoint("R", 4), DataPoint("A", 5), DataPoint("K", 7), DataPoint("S", 6), DataPoint("O", 8), DataPoint("V", 9)];
  }

  /** Dequeue number 4 when draining the writeup heap. */
  lemma DrainStep4()
    ensures Dequeued([DataPoint("R", 4), DataPoint("A", 5), DataPoint("K", 7), DataPoint("S", 6), DataPoint("O", 8), DataPoint("V", 9)])
         == [DataPoint("A", 5), DataPoint("S", 6), DataPoint("K", 7), DataPoint("V", 9), DataPoint("O", 8)]
  {
    assert Swap([DataPoint("R", 4), DataPoint("A", 5), DataPoint("K", 7), DataPoint("S", 6), DataPoint("O", 8), DataPoint("V", 9)], 0, 5)[..5]
        == [DataPoint("V", 9), DataPoint("A", 5), DataPoint("K", 7), DataPoint("S", 6), DataPoint("O", 8)];
    assert Smallest([DataPoint("V", 9), DataPoint("A", 5), DataPoint("K", 7), DataPoint("S", 6), DataPoint("O", 8)], 0) == 1;
    assert Swap([DataPoint("V", 9), DataPoint("A", 5), DataPoint("K", 7), DataPoint("S", 6), DataPoint("O", 8)], 0, 1)
        == [DataPoint("A", 5), DataPoint("V", 9), DataPoint("K", 7), DataPoint("S", 6), DataPoint("O", 8)];
    assert Smallest([DataPoint("A", 5), DataPoint("V", 9), DataPoint("K", 7), DataPoint("S", 6), DataPoint("O", 8)], 1) == 3;
    assert Swap([DataPoint("A", 5), DataPoint("V", 9), DataPoint("K", 7), DataPoint("S", 6), DataPoint("O", 8)], 1, 3)
        == [DataPoint("A", 5), DataPoint("S", 6), DataPoint("K", 7), DataPoint("V", 9), DataPoint("O", 8)];
  }

  /** Dequeue number 5 when draining the writeup heap. */
  lemma DrainStep5()
    ensures Dequeued([DataPoint("A", 5), DataPoint("S", 6), DataPoint("K", 7), DataPoint("V", 9), DataPoint("O", 8)])
         == [DataPoint("S", 6), DataPoint("O", 8), DataPoint("K", 7), DataPoint("V", 9)]
  {
    assert Swap([DataPoint("A", 5), DataPoint("S", 6), DataPoint("K", 7), DataPoint("V", 9), DataPoint("O", 8)], 0, 4)[..4]
        == [DataPoint("O", 8), DataPoint("S", 6), DataPoint("K", 7), DataPoint("V", 9)];
    assert Smallest([DataPoint("O", 8), DataPoint("S", 6), DataPoint("K", 7), DataPoint("V", 9)], 0) == 1;
    assert Swap([DataPoint("O", 8), DataPoint("S", 6), DataPoint("K", 7), DataPoint("V", 9)], 0, 1)
        == [DataPoint("S", 6), DataPoint("O", 8), DataPoint("K", 7), DataPoint("V", 9)];
  }

  /** Dequeue number 6 when draining the writeup heap. */
  lemma DrainStep6()
    ensures Dequeued([DataPoint("S", 6), DataPoint("O", 8), DataPoint("K", 7), DataPoint("V", 9)])
         == [DataPoint("K", 7), DataPoint("O", 8), DataPoint("V", 9)]
  {
    assert Swap([DataPoint("S", 6), DataPoint("O", 8), DataPoint("K", 7), DataPoint("V", 9)], 0, 3)[..3]
        == [DataPoint("V", 9), DataPoint("O", 8), DataPoint("K", 7)];
    assert Smallest([DataPoint("V", 9), DataPoint("O", 8), DataPoint("K", 7)], 0) == 2;
    assert Swap([DataPoint("V", 9), DataPoint("O", 8), DataPoint("K", 7)], 0, 2)
        == [DataPoint("K", 7), DataPoint("O", 8), DataPoint("V", 9)];
  }

  /** Dequeue number 7 when draining the writeup heap. */
  lemma DrainStep7()
    ensures Dequeued([DataPoint("K", 7), DataPoint("O", 8), DataPoint("V", 9)])
         == [DataPoint("O", 8), DataPoint("V", 9)]
  {
    assert Swap([DataPoint("K", 7), DataPoint("O", 8), DataPoint("V", 9)], 0, 2)[..2]
        == [DataPoint("V", 9), DataPoint("O", 8)];
    assert Smallest([DataPoint("V", 9), DataPoint("O", 8)], 0) == 1;
    assert Swap([DataPoint("V", 9), DataPoint("O", 8)], 0, 1)
        == [DataPoint("O", 8), DataPoint("V", 9)];
  }

  /** Dequeue number 8 when draining the writeup heap. */
  lemma DrainStep8()
    ensures Dequeued([DataPoint("O", 8), DataPoint("V", 9)])
         == [DataPoint("V", 9)]
  {
    assert Swap([DataPoint("O", 8), DataPoint("V", 9)], 0, 1)[..1]
        == [DataPoint("V", 9)];
  }

  /** Dequeue number 9 when draining the writeup heap. */
  lemma DrainStep9()
    ensures Dequeued([DataPoint("V", 9)])
         == []
  {
  }

  /** Enqueue on a queue whose resulting contents are already known. */
  method EnqueueExpecting(pq: PQHeap, x: DataPoint, ghost expected: seq<DataPoint>)
    requires pq.Valid() && Enqueued(pq.Contents(), x) == expected
    modifies pq, pq.elements
    ensures pq.Valid() && pq.Contents() == expected
    ensures pq.elements == old(pq.elements) || fresh(pq.elements)
  {
    pq.Enqueue(x);
  }

  /** Enqueue onto a heap whose resulting contents are already known, then confirm heap order. */
  method EnqueueConfirming(pq: PQHeap, x: DataPoint, ghost expected: seq<DataPoint>) returns (check: Outcome)
    requires pq.Valid() && IsHeap(pq.Contents()) && Enqueued(pq.Contents(), x) == expected
    modifies pq, pq.elements
    ensures pq.Valid() && IsHeap(pq.Contents()) && pq.Contents() == expected && check == Pass
    ensures pq.elements == old(pq.elements) || fresh(pq.elements)
  {
    pq.Enqueue(x);
    check := pq.DebugConfirmInternalArray();
  }

  /** Dequeue on a non-empty queue whose resulting contents are already known. */
  method DequeueExpecting(pq: PQHeap, ghost expected: seq<DataPoint>) returns (front: Result<DataPoint>)
    requires pq.Valid() && pq.Contents() != [] && Dequeued(pq.Contents()) == expected
    modifies pq, pq.elements
    ensures pq.Valid() && pq.Contents() == expected && pq.elements == old(pq.elements)
    ensures front == Success(old(pq.Contents())[0])
  {
    front := pq.Dequeue();
  }


  /** A fresh queue after enqueueing R4, A5, B3, K7, G2, V9, T1, O8, S6 in that order. */
  method BuildWriteupHeap() returns (pq: PQHeap)
    ensures fresh(pq) && fresh(pq.elements) && pq.Valid()
    ensures pq.Contents()
         == [DataPoint("T", 1), DataPoint("B", 3), DataPoint("G", 2), DataPoint("S", 6), DataPoint("A", 5), DataPoint("V", 9), DataPoint("R", 4), DataPoint("O", 8), DataPoint("K", 7)]
  {
    pq := new PQHeap();
    BuildStep1();
    EnqueueExpecting(pq, DataPoint("R", 4), [DataPoint("R", 4)]);
    BuildStep2();
    EnqueueExpecting(pq, DataPoint("A", 5), [DataPoint("R", 4), DataPoint("A", 5)]);
    BuildStep3();
    EnqueueExpecting(pq, DataPoint("B", 3), [DataPoint("B", 3), DataPoint("A", 5), DataPoint("R", 4)]);
    BuildStep4();
    EnqueueExpecting(pq, DataPoint("K", 7), [DataPoint("B", 3), DataPoint("A", 5), DataPoint("R", 4), DataPoint("K", 7)]);
    BuildStep5();
    EnqueueExpecting(pq, DataPoint("G", 2), [DataPoint("G", 2), DataPoint("B", 3), DataPoint("R", 4), DataPoint("K", 7), DataPoint("A", 5)]);
    BuildStep6();
    EnqueueExpecting(pq, DataPoint("V", 9), [DataPoint("G", 2), DataPoint("B", 3), DataPoint("R", 4), DataPoint("K", 7), DataPoint("A", 5), DataPoint("V", 9)]);
    BuildStep7();
    EnqueueExpecting(pq, DataPoint("T", 1), [DataPoint("T", 1), DataPoint("B", 3), DataPoint("G", 2), DataPoint("K", 7), DataPoint("A", 5), DataPoint("V", 9), DataPoint("R", 4)]);
    BuildStep8();
    EnqueueExpecting(pq, DataPoint("O", 8), [DataPoint("T", 1), DataPoint("B", 3), DataPoint("G", 2), DataPoint("K", 7), DataPoint("A", 5), DataPoint("V", 9), DataPoint("R", 4), DataPoint("O", 8)]);
    BuildStep9();
    EnqueueExpecting(pq, DataPoint("S", 6), [DataPoint("T", 1), DataPoint("B", 3), DataPoint("G", 2), DataPoint("S", 6), DataPoint("A", 5), DataPoint("V", 9), DataPoint("R", 4), DataPoint("O", 8), DataPoint("K", 7)]);
  }

  /**
    Nine enqueues, two single dequeues with a snapshot after each, six more
    dequeues down to one element, the last dequeue, and one dequeue too many.
   */
  method DequeueOnEmptyScenario() returns (built: seq<DataPoint>, afterOne: seq<DataPoint>, afterTwo: seq<DataPoint>,
                                           lastOne: seq<DataPoint>, drained: seq<DataPoint>, onEmpty: Result<DataPoint>)
    ensures built == [DataPoint("T", 1), DataPoint("B", 3), DataPoint("G", 2), DataPoint("S", 6), DataPoint("A", 5), DataPoint("V", 9), DataPoint("R", 4), DataPoint("O", 8), DataPoint("K", 7)]
    ensures afterOne == [DataPoint("G", 2), DataPoint("B", 3), DataPoint("R", 4), DataPoint("S", 6), DataPoint("A", 5), DataPoint("V", 9), DataPoint("K", 7), DataPoint("O", 8)]
    ensures afterTwo == [DataPoint("B", 3), DataPoint("A", 5), DataPoint("R", 4), DataPoint("S", 6), DataPoint("O", 8), DataPoint("V", 9), DataPoint("K", 7)]
    ensures lastOne == [DataPoint("V", 9)]
    ensures drained == []
    ensures onEmpty == Failure(EmptyQueue)
  {
    var pq := BuildWriteupHeap();
    built := pq.DebugGetInternalArrayContents();
    DrainStep1();
    var front := DequeueExpecting(pq, [DataPoint("G", 2), DataPoint("B", 3), DataPoint("R", 4), DataPoint("S", 6), DataPoint("A", 5), DataPoint("V", 9), DataPoint("K", 7), DataPoint("O", 8)]);
    afterOne := pq.DebugGetInternalArrayContents();
    DrainStep2();
    front := DequeueExpecting(pq, [DataPoint("B", 3), DataPoint("A", 5), DataPoint("R", 4), DataPoint("S", 6), DataPoint("O", 8), DataPoint("V", 9), DataPoint("K", 7)]);
    afterTwo := pq.DebugGetInternalArrayContents();
    DrainStep3();
    front := DequeueExpecting(pq, [DataPoint("R", 4), DataPoint("A", 5), DataPoint("K", 7), DataPoint("S", 6), DataPoint("O", 8), DataPoint("V", 9)]);
    DrainStep4();
    front := DequeueExpecting(pq, [DataPoint("A", 5), DataPoint("S", 6), DataPoint("K", 7), DataPoint("V", 9), DataPoint("O", 8)]);
    DrainStep5();
    front := DequeueExpecting(pq, [DataPoint("S", 6), DataPoint("O", 8), DataPoint("K", 7), DataPoint("V", 9)]);
    DrainStep6();
    front := DequeueExpecting(pq, [DataPoint("K", 7), DataPoint("O", 8), DataPoint("V", 9)]);
    DrainStep7();
    front := DequeueExpecting(pq, [DataPoint("O", 8), DataPoint("V", 9)]);
    DrainStep8();
    front := DequeueExpecting(pq, [DataPoint("V", 9)]);
    lastOne := pq.DebugGetInternalArrayContents();
    DrainStep9();
    front := DequeueExpecting(pq, []);
    drained := pq.DebugGetInternalArrayContents();
    onEmpty := pq.Dequeue();
  }

  /** Nine enqueues, then a tenth element of smaller priority than all of them. */
  method EnqueuePercolateUpScenario() returns (built: seq<DataPoint>, withNewMinimum: seq<DataPoint>)
    ensures built == [DataPoint("T", 1), DataPoint("B", 3), DataPoint("G", 2), DataPoint("S", 6), DataPoint("A", 5), DataPoint("V", 9), DataPoint("R", 4), DataPoint("O", 8), DataPoint("K", 7)]
    ensures withNewMinimum == [DataPoint("Z", 0), DataPoint("T", 1), DataPoint("G", 2), DataPoint("S", 6), DataPoint("B", 3), DataPoint("V", 9), DataPoint("R", 4), DataPoint("O", 8), DataPoint("K", 7), DataPoint("A", 5)]
  {
    var pq := BuildWriteupHeap();
    built := pq.DebugGetInternalArrayContents();
    BuildStepZ();
    EnqueueExpecting(pq, DataPoint("Z", 0), [DataPoint("Z", 0), DataPoint("T", 1), DataPoint("G", 2), DataPoint("S", 6), DataPoint("B", 3), DataPoint("V", 9), DataPoint("R", 4), DataPoint("O", 8), DataPoint("K", 7), DataPoint("A", 5)]);
    withNewMinimum := pq.DebugGetInternalArrayContents();
  }

  /**
    A fresh queue after enqueueing the writeup input, with heap order confirmed on
    the empty queue and after every enqueue.
   */
  method BuildConfirmingWriteupHeap() returns (pq: PQHeap, everyCheckPassed: bool)
    ensures fresh(pq) && fresh(pq.elements) && pq.Valid()
    ensures pq.Contents()
         == [DataPoint("T", 1), DataPoint("B", 3), DataPoint("G", 2), DataPoint("S", 6), DataPoint("A", 5), DataPoint("V", 9), DataPoint("R", 4), DataPoint("O", 8), DataPoint("K", 7)]
    ensures everyCheckPassed
  {
    pq := new PQHeap();
    var check := pq.DebugConfirmInternalArray();
    everyCheckPassed := check == Pass;
    BuildStep1();
    check := EnqueueConfirming(pq, DataPoint("R", 4), [DataPoint("R", 4)]);
    everyCheckPassed := everyCheckPassed && check == Pass;
    BuildStep2();
    check := EnqueueConfirming(pq, DataPoint("A", 5), [DataPoint("R", 4), DataPoint("A", 5)]);
    everyCheckPassed := everyCheckPassed && check == Pass;
    BuildStep3();
    check := EnqueueConfirming(pq, DataPoint("B", 3), [DataPoint("B", 3), DataPoint("A", 5), DataPoint("R", 4)]);
    everyCheckPassed := everyCheckPassed && check == Pass;
    BuildStep4();
    check := EnqueueConfirming(pq, DataPoint("K", 7), [DataPoint("B", 3), DataPoint("A", 5), DataPoint("R", 4), DataPoint("K", 7)]);
    everyCheckPassed := everyCheckPassed && check == Pass;
    BuildStep5();
    check := EnqueueConfirming(pq, DataPoint("G", 2), [DataPoint("G", 2), DataPoint("B", 3), DataPoint("R", 4), DataPoint("K", 7), DataPoint("A", 5)]);
    everyCheckPassed := everyCheckPassed && check == Pass;
    BuildStep6();
    check := EnqueueConfirming(pq, DataPoint("V", 9), [DataPoint("G", 2), DataPoint("B", 3), DataPoint("R", 4), DataPoint("K", 7), DataPoint("A", 5), DataPoint("V", 9)]);
    everyCheckPassed := everyCheckPassed && check == Pass;
    BuildStep7();
    check := EnqueueConfirming(pq, DataPoint("T", 1), [DataPoint("T", 1), DataPoint("B", 3), DataPoint("G", 2), DataPoint("K", 7), DataPoint("A", 5), DataPoint("V", 9), DataPoint("R", 4)]);
    everyCheckPassed := everyCheckPassed && check == Pass;
    BuildStep8();
    check := EnqueueConfirming(pq, DataPoint("O", 8), [DataPoint("T", 1), DataPoint("B", 3), DataPoint("G", 2), DataPoint("K", 7), DataPoint("A", 5), DataPoint("V", 9), DataPoint("R", 4), DataPoint("O", 8)]);
    everyCheckPassed := everyCheckPassed && check == Pass;
    BuildStep9();
    check := EnqueueConfirming(pq, DataPoint("S", 6), [DataPoint("T", 1), DataPoint("B", 3), DataPoint("G", 2), DataPoint("S", 6), DataPoint("A", 5), DataPoint("V", 9), DataPoint("R", 4), DataPoint("O", 8), DataPoint("K", 7)]);
    everyCheckPassed := everyCheckPassed && check == Pass;
  }

  /**
    The writeup example: heap order is confirmed on the empty queue and after every
    enqueue, then the contents are compared before and after two dequeues.
   */
  method WriteupScenario() returns (everyCheckPassed: bool, built: seq<DataPoint>, afterTwo: seq<DataPoint>)
    ensures everyCheckPassed
    ensures built == [DataPoint("T", 1), DataPoint("B", 3), DataPoint("G", 2), DataPoint("S", 6), DataPoint("A", 5), DataPoint("V", 9), DataPoint("R", 4), DataPoint("O", 8), DataPoint("K", 7)]
    ensures afterTwo == [DataPoint("B", 3), DataPoint("A", 5), DataPoint("R", 4), DataPoint("S", 6), DataPoint("O", 8), DataPoint("V", 9), DataPoint("K", 7)]
  {
    var pq;
    pq, everyCheckPassed := BuildConfirmingWriteupHeap();
    built := pq.DebugGetInternalArrayContents();
    DrainStep1();
    var front := DequeueExpecting(pq, [DataPoint("G", 2), DataPoint("B", 3), DataPoint("R", 4), DataPoint("S", 6), DataPoint("A", 5), DataPoint("V", 9), DataPoint("K", 7), DataPoint("O", 8)]);
    DrainStep2();
    front := DequeueExpecting(pq, [DataPoint("B", 3), DataPoint("A", 5), DataPoint("R", 4), DataPoint("S", 6), DataPoint("O", 8), DataPoint("V", 9), DataPoint("K", 7)]);
    afterTwo := pq.DebugGetInternalArrayContents();
  }
}
