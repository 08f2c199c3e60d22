/** The shared virtual clock and its event heap (internal/clock/clock.go). */
module Clock {
  import opened Basics

  /** One scheduled delivery; `fn` stands for the callback closure. */
  datatype Event<F> = Event(deliverAt: int, seqNo: int, session: nat, fn: F)

  predicate Less<F>(a: Event<F>, b: Event<F>) {
    if a.deliverAt != b.deliverAt then a.deliverAt < b.deliverAt
    else if a.seqNo != b.seqNo then a.seqNo < b.seqNo
    else a.session < b.session
  }

  lemma LessTransitive<F>(a: Event<F>, b: Event<F>, c: Event<F>)
    requires !Less(a, b) && !Less(b, c)
    ensures !Less(a, c)
  {}

  function Swap<F>(h: seq<Event<F>>, i: nat, j: nat): (r: seq<Event<F>>)
    requires i < |h| && j < |h|
    ensures |r| == |h| && multiset(r) == multiset(h)
  {
    h[i := h[j]][j := h[i]]
  }

  /** Index of the parent of heap slot j; Go's (j - 1) / 2 truncates, so slot 0 is its own parent. */
  function Parent(j: nat): nat { if j == 0 then 0 else (j - 1) / 2 }

  /** Slot k does not sort before its parent. */
  predicate InOrder<F>(h: seq<Event<F>>, k: nat)
    requires k < |h|
  {
    !Less(h[k], h[Parent(k)])
  }

  /** The heap property of the first n slots. */
  ghost predicate Ordered<F>(h: seq<Event<F>>, n: nat)
    requires n <= |h|
  {
    forall k: nat | k < n :: InOrder(h, k)
  }

  // Ordered except between slot j and its parent; j's children respect j's parent.
  ghost predicate OrderedAbove<F>(h: seq<Event<F>>, j: nat)
    requires j < |h|
  {
    && (forall k: nat | k < |h| && k != j :: InOrder(h, k))
    && (forall k: nat | k < |h| && Parent(k) == j :: !Less(h[k], h[Parent(j)]))
  }

  // The first n slots are ordered except between slot i and its children, which respect i's parent.
  ghost predicate OrderedBelow<F>(h: seq<Event<F>>, i: nat, n: nat)
    requires i < n <= |h|
  {
    && (forall k: nat | k < n && Parent(k) != i :: InOrder(h, k))
    && InOrder(h, i)
    && (forall k: nat | k < n && Parent(k) == i && i > 0 :: !Less(h[k], h[Parent(i)]))
  }

  /** container/heap's up: lift slot j while it sorts before its parent. */
  function Up<F>(h: seq<Event<F>>, j: nat): (r: seq<Event<F>>)
    requires j < |h|
    ensures |r| == |h| && multiset(r) == multiset(h)
    decreases j
  {
    var i := Parent(j);
    if i == j || !Less(h[j], h[i]) then h else Up(Swap(h, i, j), i)
  }

  /** The larger-priority child of slot i among the first n slots. */
  function Child<F>(h: seq<Event<F>>, i: nat, n: nat): (j: nat)
    requires 2 * i + 1 < n <= |h|
    ensures i < j < n && Parent(j) == i
  {
    if 2 * i + 2 < n && Less(h[2 * i + 2], h[2 * i + 1]) then 2 * i + 2 else 2 * i + 1
  }

  /** container/heap's down on the first n slots: sink slot i below its smaller child. */
  function Down<F>(h: seq<Event<F>>, i: nat, n: nat): (r: seq<Event<F>>)
    requires n <= |h|
    ensures |r| == |h| && multiset(r) == multiset(h) && r[n..] == h[n..]
    decreases n - i
  {
    if 2 * i + 1 >= n then h
    else
      var j := Child(h, i, n);
      if !Less(h[j], h[i]) then h else Down(Swap(h, i, j), j, n)
  }

  lemma UpStep<F>(h: seq<Event<F>>, j: nat)
    requires j < |h| && OrderedAbove(h, j) && j != Parent(j) && Less(h[j], h[Parent(j)])
    ensures OrderedAbove(Swap(h, Parent(j), j), Parent(j))
  {
    var i := Parent(j);
    var r := Swap(h, i, j);
    forall k: nat | k < |r| && k != i
      ensures InOrder(r, k)
    {
      assert k != j ==> InOrder(h, k);
    }
    forall k: nat | k < |r| && Parent(k) == i
      ensures !Less(r[k], r[Parent(i)])
    {
      assert InOrder(h, i);
      assert k != j ==> InOrder(h, k);
    }
  }

  lemma {:induction false} UpOrders<F>(h: seq<Event<F>>, j: nat)
    requires j < |h| && OrderedAbove(h, j)
    ensures Ordered(Up(h, j), |h|)
    decreases j
  {
    var i := Parent(j);
    if i != j && Less(h[j], h[i]) {
      UpStep(h, j);
      UpOrders(Swap(h, i, j), i);
    } else {
      assert InOrder(h, j);
    }
  }

  /** The chosen child does not sort after any child of its parent. */
  lemma ChildIsLeast<F>(h: seq<Event<F>>, i: nat, n: nat, k: nat)
    requires 2 * i + 1 < n <= |h| && k < n && k != i && Parent(k) == i
    ensures !Less(h[k], h[Child(h, i, n)])
  {
    assert k == 2 * i + 1 || k == 2 * i + 2;
  }

  /** After sinking slot i below its smaller child j, slot k respects its parent unless that is j. */
  lemma DownStepAt<F>(h: seq<Event<F>>, i: nat, n: nat, j: nat, k: nat)
    requires 2 * i + 1 < n <= |h| && OrderedBelow(h, i, n) && j == Child(h, i, n) && Less(h[j], h[i])
    requires k < n && Parent(k) != j
    ensures InOrder(Swap(h, i, j), k)
  {
    if k == i {
      assert i > 0 ==> !Less(h[j], h[Parent(i)]);
    } else if Parent(k) == i {
      ChildIsLeast(h, i, n, k);
    } else {
      assert k != j;
      assert InOrder(h, k);
    }
  }

  lemma DownStep<F>(h: seq<Event<F>>, i: nat, n: nat)
    requires 2 * i + 1 < n <= |h| && OrderedBelow(h, i, n)
    requires Less(h[Child(h, i, n)], h[i])
    ensures OrderedBelow(Swap(h, i, Child(h, i, n)), Child(h, i, n), n)
  {
    var j := Child(h, i, n);
    var r := Swap(h, i, j);
    forall k: nat | k < n && Parent(k) != j ensures InOrder(r, k) {
      DownStepAt(h, i, n, j, k);
    }
    DownStepAt(h, i, n, j, j);
    forall k: nat | k < n && Parent(k) == j ensures !Less(r[k], r[Parent(j)]) {
      assert Parent(k) != i && InOrder(h, k);
    }
  }

  lemma SettledChild<F>(h: seq<Event<F>>, i: nat, n: nat, k: nat)
    requires k < n && i < n <= |h| && OrderedBelow(h, i, n)
    requires 2 * i + 1 < n ==> !Less(h[Child(h, i, n)], h[i])
    ensures InOrder(h, k)
  {
    if Parent(k) == i && k != i {
      ChildIsLeast(h, i, n, k);
      LessTransitive(h[k], h[Child(h, i, n)], h[i]);
    } else if k == i {
      assert InOrder(h, i);
    }
  }

  lemma {:induction false} DownOrders<F>(h: seq<Event<F>>, i: nat, n: nat)
    requires i < n <= |h| && OrderedBelow(h, i, n)
    ensures Ordered(Down(h, i, n), n)
    decreases n - i
  {
    if 2 * i + 1 < n && Less(h[Child(h, i, n)], h[i]) {
      DownStep(h, i, n);
      DownOrders(Swap(h, i, Child(h, i, n)), Child(h, i, n), n);
    } else {
      forall k: nat | k < n ensures InOrder(h, k) {
        SettledChild(h, i, n, k);
      }
    }
  }

  /** The root of a heap sorts before or with every entry. */
  lemma {:induction false} RootIsLeast<F>(h: seq<Event<F>>, n: nat, k: nat)
    requires k < n <= |h| && Ordered(h, n)
    ensures !Less(h[k], h[0])
    decreases k
  {
    if k > 0 {
      RootIsLeast(h, n, Parent(k));
      assert InOrder(h, k);
    }
  }

  /** heap.Push: append, then lift. */
  function Push<F>(h: seq<Event<F>>, e: Event<F>): (r: seq<Event<F>>)
    ensures multiset(r) == multiset(h) + multiset{e}
  {
    Up(h + [e], |h|)
  }

  /** heap.Pop: the root, and the heap without it. */
  function Pop<F>(h: seq<Event<F>>): (r: (Event<F>, seq<Event<F>>))
    requires h != []
    ensures multiset(h) == multiset(r.1) + multiset{r.0}
    ensures r.0 in h
  {
    var n := |h| - 1;
    var d := Down(Swap(h, 0, n), 0, n);
    assert d[n] == d[n..][0] == h[0];
    assert d == d[..n] + [d[n]];
    (d[n], d[..n])
  }

  ghost predicate IsLeast<F>(e: Event<F>, h: seq<Event<F>>) {
    e in h && forall x | x in h :: !Less(x, e)
  }

  lemma PushKeepsOrder<F>(h: seq<Event<F>>, e: Event<F>)
    requires Ordered(h, |h|)
    ensures Ordered(Push(h, e), |Push(h, e)|)
  {
    var g := h + [e];
    forall k: nat | k < |g| && k != |h| ensures InOrder(g, k) {
      assert InOrder(h, k);
    }
    UpOrders(g, |h|);
  }

  lemma PopTakesLeast<F>(h: seq<Event<F>>)
    requires h != [] && Ordered(h, |h|)
    ensures IsLeast(Pop(h).0, h)
    ensures Ordered(Pop(h).1, |Pop(h).1|)
  {
    var n := |h| - 1;
    forall x | x in h ensures !Less(x, h[0]) {
      var k: nat :| k < |h| && h[k] == x;
      RootIsLeast(h, |h|, k);
    }
    var s := Swap(h, 0, n);
    var d := Down(s, 0, n);
    assert d[n] == d[n..][0] == h[0];
    if n > 0 {
      forall k: nat | k < n && Parent(k) != 0 ensures InOrder(s, k) {
        assert InOrder(h, k);
      }
      DownOrders(s, 0, n);
      forall k: nat | k < n ensures InOrder(d[..n], k) {
        assert InOrder(d, k);
      }
    }
  }

  // ---- the clock itself ----

  lemma PopIs<F>(h: seq<Event<F>>, d: seq<Event<F>>)
    requires h != [] && d == Down(Swap(h, 0, |h| - 1), 0, |h| - 1)
    ensures Pop(h) == (d[|h| - 1], d[..|h| - 1])
  {}

  lemma DownUnfolds<F>(h: seq<Event<F>>, i: nat, n: nat)
    requires 2 * i + 1 < n <= |h| && Less(h[Child(h, i, n)], h[i])
    ensures Down(h, i, n) == Down(Swap(h, i, Child(h, i, n)), Child(h, i, n), n)
  {}

  lemma PushedMembers<F>(h: seq<Event<F>>, e: Event<F>)
    ensures forall x | x in Push(h, e) :: x in h || x == e
  {
    forall x | x in Push(h, e) ensures x in h || x == e {
      assert x in multiset(h) + multiset{e};
    }
  }

  lemma PopFacts<F>(h: seq<Event<F>>, e: Event<F>, rest: seq<Event<F>>)
    requires h != [] && Ordered(h, |h|) && (e, rest) == Pop(h)
    ensures IsLeast(e, h) && Ordered(rest, |rest|) && multiset(h) == multiset(rest) + multiset{e}
    ensures forall x | x in rest :: x in h && e.deliverAt <= x.deliverAt
  {
    PopTakesLeast(h);
    forall x | x in rest ensures x in h && e.deliverAt <= x.deliverAt {
      assert x in multiset(h);
      assert !Less(x, e);
    }
  }

  /** What was done to the heap. */
  datatype HeapOp<F> = Pushed(event: Event<F>) | Popped

  /** The heap that a sequence of pushes and pops leaves. */
  function Rebuild<F>(ops: seq<HeapOp<F>>): seq<Event<F>> {
    if ops == [] then []
    else
      var h := Rebuild(ops[..|ops| - 1]);
      match ops[|ops| - 1]
      case Pushed(e) => Push(h, e)
      case Popped => if h == [] then [] else Pop(h).1
  }

  lemma RebuildOne<F>(ops: seq<HeapOp<F>>, op: HeapOp<F>)
    ensures var h := Rebuild(ops);
            Rebuild(ops + [op]) == match op case Pushed(e) => Push(h, e) case Popped => if h == [] then [] else Pop(h).1
  {
    assert (ops + [op])[..|ops|] == ops;
  }

  /** Mentioned to bring a clock's history to mind; proofs that do not need it are spared it. */
  ghost predicate Recall<F(!new)>(ops: seq<HeapOp<F>>) { true }

  /** The virtual clock; callbacks are data here, run by whoever advances it. The heap is a function of the pushes
      and pops in `history`, whatever ties it holds. */
  class ManualClock<F(!new)> {
    var now: int
    var heap: seq<Event<F>>
    ghost var history: seq<HeapOp<F>>

    /** The heap is a heap, and nothing pending is overdue. */
    ghost predicate Valid()
      reads this
    {
      && Ordered(heap, |heap|)
      && (forall e | e in heap :: e.deliverAt >= now)
      && (forall ops {:trigger Recall(ops)} :: Recall(ops) && ops == history ==> heap == Rebuild(ops))
    }

    /** Whatever ties it holds, the heap is what its history of pushes and pops makes it. */
    lemma HeapIsHistory()
      requires Valid()
      ensures heap == Rebuild(history)
    {
      assert Recall(history);
    }

    constructor (baseMs: int)
      ensures Valid() && now == baseMs && heap == [] && history == []
    {
      now, heap, history := baseMs, [], [];
    }

    /** heap.Push (internal/clock/clock.go:72-76 and container/heap): append, then swap with the parent while
        smaller. */
    method HeapPush(e: Event<F>)
      modifies this`heap
      ensures heap == Push(old(heap), e)
    {
      var j: nat := |heap|;
      heap := heap + [e];
      while Parent(j) != j && Less(heap[j], heap[Parent(j)])
        invariant j < |heap| && Up(heap, j) == Push(old(heap), e)
        decreases j
      {
        var i := Parent(j);
        heap := Swap(heap, i, j);
        j := i;
      }
    }

    /** heap.Pop (internal/clock/clock.go:78-86 and container/heap): root to the end, sink the new root, truncate. */
    method HeapPop() returns (e: Event<F>)
      requires heap != []
      modifies this`heap
      ensures (e, heap) == Pop(old(heap))
    {
      var n := |heap| - 1;
      heap := Swap(heap, 0, n);
      ghost var sunk := Down(heap, 0, n);
      PopIs(old(heap), sunk);
      var i := 0;
      while 2 * i + 1 < n && Less(heap[Child(heap, i, n)], heap[i])
        invariant i <= n && |heap| == n + 1 && Down(heap, i, n) == sunk
        decreases n - i
      {
        var j := Child(heap, i, n);
        DownUnfolds(heap, i, n);
        heap := Swap(heap, i, j);
        i := j;
      }
      assert Down(heap, i, n) == heap;
      e := heap[n];
      heap := heap[..n];
    }

    /** Schedule (internal/clock/clock.go:124-136): nothing fires before now. */
    method Schedule(deliverAt: int, seqNo: int, session: nat, fn: F)
      requires Valid()
      modifies this
      ensures Valid() && now == old(now)
      ensures history == old(history) + [Pushed(Event(if deliverAt < now then now else deliverAt, seqNo, session, fn))]
    {
      var at := if deliverAt < now then now else deliverAt;
      var e := Event(at, seqNo, session, fn);
      PushKeepsOrder(heap, e);
      PushedMembers(heap, e);
      HeapIsHistory();
      RebuildOne(history, Pushed(e));
      HeapPush(e);
      history := history + [Pushed(e)];
    }

    method Pending() returns (n: nat)
      ensures n == |heap|
    {
      n := |heap|;
    }

    /** Advance (internal/clock/clock.go:150-163) up to the callback: the least event, its time, and the rest. */
    method Advance() returns (e: Option<Event<F>>)
      requires Valid()
      modifies this
      ensures Valid() && (e.None? <==> old(heap) == [])
      ensures e.None? ==> heap == [] && now == old(now) && history == old(history)
      ensures e.Some? ==> && (e.value, heap) == Pop(old(heap)) && IsLeast(e.value, old(heap))
                          && multiset(old(heap)) == multiset(heap) + multiset{e.value}
                          && now == e.value.deliverAt >= old(now) && history == old(history) + [Popped]
    {
      if |heap| == 0 {
        return None;
      }
      RebuildOne(history, Popped);
      HeapIsHistory();
      var next := HeapPop();
      PopFacts(old(heap), next, heap);
      history := history + [Popped];
      if next.deliverAt > now {
        now := next.deliverAt;
      }
      e := Some(next);
    }
  }
}
