/**
 * Tier-aware work queue (internal/scheduler/priorityqueue/priorityqueue.go): a binary heap of waiting
 * requests with back-indexes, the requests being processed, and the Adds deferred until Done.
 */
module WorkQueues {
  /** A waiting request; times are readings of one clock. */
  datatype Entry = Entry(request: string, priority: int, enqueued: int)

  /** The abstract queue. */
  datatype Model = Model(waiting: map<string, Entry>, processing: set<string>, deferred: map<string, int>, closed: bool)

  const EmptyQueue := Model(map[], {}, map[], false)

  datatype Event =
    | Added(request: string, priority: int, now: int)
    | Took(request: string)
    | Finished(request: string, now: int)
    | ShutDown

  predicate Less(a: Entry, b: Entry) {
    a.priority > b.priority || (a.priority == b.priority && a.enqueued < b.enqueued)
  }

  /** No waiting request goes strictly before `r`. */
  predicate Best(waiting: map<string, Entry>, r: string) {
    r in waiting && forall q :: q in waiting ==> !Less(waiting[q], waiting[r])
  }

  predicate Enabled(m: Model, e: Event) {
    e.Took? ==> Best(m.waiting, e.request)
  }

  function Step(m: Model, e: Event): Model {
    match e
    case Added(r, p, now) =>
      if m.closed then m
      else if r in m.processing then m.(deferred := m.deferred[r := p])
      else if r in m.waiting then
        if p > m.waiting[r].priority then m.(waiting := m.waiting[r := m.waiting[r].(priority := p)]) else m
      else m.(waiting := m.waiting[r := Entry(r, p, now)])
    case Took(r) => m.(waiting := m.waiting - {r}, processing := m.processing + {r})
    case Finished(r, now) =>
      var m' := m.(processing := m.processing - {r});
      if r in m.deferred then
          m'.(deferred := m.deferred - {r}, waiting := m.waiting[r := Entry(r, m.deferred[r], now)]) else m'
    case ShutDown => m.(closed := true)
  }

  /** A request is never waiting and processing at once; only Adds of a request in process are deferred. */
  predicate Separate(m: Model) {
    m.waiting.Keys !! m.processing && m.deferred.Keys <= m.processing
        && forall r :: r in m.waiting ==> m.waiting[r].request == r
  }

  lemma StepKeepsSeparate(m: Model, e: Event)
    requires Separate(m) && Enabled(m, e)
    ensures Separate(Step(m, e))
  {
  }

  // ----- The heap -----

  function Parent(k: int): int { (k - 1) / 2 }

  predicate Below(h: seq<Entry>, k: int)
    requires 0 <= k < |h|
  {
    k > 0 ==> !Less(h[k], h[Parent(k)])
  }

  /** The first `n` entries form a heap. */
  predicate HeapOrdered(h: seq<Entry>, n: int)
    requires 0 <= n <= |h|
  {
    forall k :: 0 <= k < n ==> Below(h, k)
  }

  /** A heap but for the entry at `i`, which may be out of order with its parent and its children. */
  predicate Gap(h: seq<Entry>, i: int, n: int)
    requires 0 <= i < |h| && 0 <= n <= |h|
  {
    && (forall k :: 0 <= k < n && k != i && Parent(k) != i ==> Below(h, k))
    && (i > 0 ==> forall k :: 0 < k < n && Parent(k) == i ==> !Less(h[k], h[Parent(i)]))
  }

  predicate AboveChildren(h: seq<Entry>, i: int, n: int)
    requires 0 <= i < |h| && 0 <= n <= |h|
  {
    forall k :: 0 < k < n && Parent(k) == i ==> Below(h, k)
  }

  function Swapped(h: seq<Entry>, i: int, j: int): (r: seq<Entry>)
    requires 0 <= i < |h| && 0 <= j < |h|
    ensures |r| == |h|
  {
    h[i := h[j]][j := h[i]]
  }

  // ----- Where the sifts leave every entry -----

  function SiftUp(h: seq<Entry>, j: int): (r: seq<Entry>)
    requires 0 <= j < |h|
    ensures |r| == |h|
    decreases j
  {
    if j == 0 || !Less(h[j], h[Parent(j)]) then h else SiftUp(Swapped(h, Parent(j), j), Parent(j))
  }

  /** The child of `i` that goes first, the left one when they tie. */
  function Child(h: seq<Entry>, i: int, n: int): int
    requires 0 <= i && 2 * i + 1 < n <= |h|
  {
    if 2 * i + 2 < n && Less(h[2 * i + 2], h[2 * i + 1]) then 2 * i + 2 else 2 * i + 1
  }

  predicate Sinks(h: seq<Entry>, i: int, n: int)
    requires 0 <= i < |h| && n <= |h|
  {
    2 * i + 1 < n && Less(h[Child(h, i, n)], h[i])
  }

  function SiftDown(h: seq<Entry>, i: int, n: int): (r: seq<Entry>)
    requires 0 <= i < |h| && n <= |h|
    ensures |r| == |h|
    decreases n - i
  {
    if Sinks(h, i, n) then SiftDown(Swapped(h, i, Child(h, i, n)), Child(h, i, n), n) else h
  }

  /** The heap after heap.Push, heap.Pop and heap.Fix, entry by entry. */
  function Pushed(h: seq<Entry>, e: Entry): (r: seq<Entry>)
    ensures |r| == |h| + 1
  {
    SiftUp(h + [e], |h|)
  }

  function Popped(h: seq<Entry>): (r: seq<Entry>)
    requires h != []
    ensures |r| == |h| - 1
  {
    SiftDown(Swapped(h, 0, |h| - 1), 0, |h| - 1)[..|h| - 1]
  }

  function Refitted(h: seq<Entry>, i: int): seq<Entry>
    requires 0 <= i < |h|
  {
    if Sinks(h, i, |h|) then SiftDown(h, i, |h|) else SiftUp(h, i)
  }

  lemma GapCloses(h: seq<Entry>, i: int, n: int)
    requires 0 <= i < |h| && 0 <= n <= |h| && Gap(h, i, n) && AboveChildren(h, i, n) && (i < n ==> Below(h, i))
    ensures HeapOrdered(h, n)
  {
  }

  lemma SiftUpStep(h: seq<Entry>, j: int)
    requires 0 < j < |h| && Gap(h, j, |h|) && AboveChildren(h, j, |h|) && Less(h[j], h[Parent(j)])
    ensures var h' := Swapped(h, Parent(j), j); Gap(h', Parent(j), |h|) && AboveChildren(h', Parent(j), |h|)
  {
    var i, n := Parent(j), |h|;
    var h' := Swapped(h, i, j);
    forall k | 0 < k < n && Parent(k) == i ensures Below(h', k) {
      if k != j { assert Below(h, k); }
    }
    forall k | 0 <= k < n && k != i && Parent(k) != i ensures Below(h', k) {
      if Parent(k) != j { assert Below(h, k); }
    }
    if i > 0 {
      assert Below(h, i);
      forall k | 0 < k < n && Parent(k) == i ensures !Less(h'[k], h'[Parent(i)]) {
        if k != j { assert Below(h, k); }
      }
    }
  }

  /** `j` is the child that goes first. */
  predicate FirstChild(h: seq<Entry>, i: int, j: int, n: int)
    requires 0 <= i < |h| && 0 <= n <= |h|
  {
    0 < j < n && Parent(j) == i && forall k :: 0 < k < n && Parent(k) == i ==> !Less(h[k], h[j])
  }

  lemma SiftDownStep(h: seq<Entry>, i: int, j: int, n: int)
    requires 0 <= i < n <= |h| && Gap(h, i, n) && FirstChild(h, i, j, n) && Less(h[j], h[i])
    ensures var h' := Swapped(h, i, j); Gap(h', j, n) && Below(h', j) && i < j
  {
    var h' := Swapped(h, i, j);
    forall k | 0 <= k < n && k != j && Parent(k) != j ensures Below(h', k) {
      if Parent(k) != i && k != i { assert Below(h, k); }
    }
    forall k | 0 < k < n && Parent(k) == j ensures !Less(h'[k], h'[Parent(j)]) {
      assert Below(h, k);
    }
  }

  lemma RaiseLeavesGap(h: seq<Entry>, i: int, priority: int)
    requires 0 <= i < |h| && HeapOrdered(h, |h|) && priority > h[i].priority
    ensures Gap(h[i := h[i].(priority := priority)], i, |h|)
  {
    var h' := h[i := h[i].(priority := priority)];
    forall k | 0 <= k < |h| && k != i && Parent(k) != i ensures Below(h', k) { assert Below(h, k); }
    if i > 0 {
      assert Below(h, i);
      forall k | 0 < k < |h| && Parent(k) == i ensures !Less(h'[k], h'[Parent(i)]) { assert Below(h, k); }
    }
  }

  lemma AppendLeavesGap(h: seq<Entry>, e: Entry)
    requires HeapOrdered(h, |h|)
    ensures Gap(h + [e], |h|, |h| + 1) && AboveChildren(h + [e], |h|, |h| + 1)
  {
    forall k | 0 <= k < |h| ensures Below(h + [e], k) { assert Below(h, k); }
  }

  lemma RootSwapLeavesGap(h: seq<Entry>)
    requires |h| > 0 && HeapOrdered(h, |h|)
    ensures Gap(Swapped(h, 0, |h| - 1), 0, |h| - 1)
  {
    var h' := Swapped(h, 0, |h| - 1);
    forall k | 0 <= k < |h| - 1 && k != 0 && Parent(k) != 0 ensures Below(h', k) { assert Below(h, k); }
  }

  /** Of the children `j` and `j + 1` of `i`, the loop's choice goes first. */
  lemma ChosenFirst(h: seq<Entry>, i: int, j: int, n: int)
    requires 0 <= i < n <= |h| && j < n && (j == 2 * i + 1 || j == 2 * i + 2)
    requires j == 2 * i + 1 ==> j + 1 < n ==> !Less(h[j + 1], h[j])
    requires j == 2 * i + 2 ==> Less(h[j], h[j - 1])
    ensures FirstChild(h, i, j, n) && (!Less(h[j], h[i]) ==> AboveChildren(h, i, n))
    ensures Sinks(h, i, n) == Less(h[j], h[i])
    ensures SiftDown(h, i, n) == if Less(h[j], h[i]) then SiftDown(Swapped(h, i, j), j, n) else h
  {
  }

  lemma NoChild(h: seq<Entry>, i: int, n: int)
    requires 0 <= i < |h| && 0 <= n <= |h| && 2 * i + 1 >= n
    ensures AboveChildren(h, i, n) && !Sinks(h, i, n) && SiftDown(h, i, n) == h
  {
  }

  lemma PrefixHeap(h: seq<Entry>, n: int)
    requires 0 <= n <= |h| && HeapOrdered(h, n)
    ensures HeapOrdered(h[..n], n)
  {
    forall k | 0 <= k < n ensures Below(h[..n], k) { assert Below(h, k); }
  }

  lemma {:induction false} RootFirst(h: seq<Entry>, k: int)
    requires 0 <= k < |h| && HeapOrdered(h, |h|)
    ensures !Less(h[k], h[0])
    decreases k
  {
    if k > 0 {
      assert Below(h, k);
      RootFirst(h, Parent(k));
    }
  }

  // ----- The back-indexes -----

  /** `index` is the inverse of the heap. */
  predicate Indexed(h: seq<Entry>, index: map<string, int>) {
    && (forall r :: r in index ==> 0 <= index[r] < |h| && h[index[r]].request == r)
    && (forall i :: 0 <= i < |h| ==> h[i].request in index && index[h[i].request] == i)
  }

  function Contents(h: seq<Entry>, index: map<string, int>): map<string, Entry>
    requires Indexed(h, index)
  {
    map r | r in index :: h[index[r]]
  }

  lemma SwapKeeps(h: seq<Entry>, index: map<string, int>, i: int, j: int)
    requires Indexed(h, index) && 0 <= i < |h| && 0 <= j < |h|
    ensures var h', x' := Swapped(h, i, j), index[h[j].request := i][h[i].request := j];
            Indexed(h', x') && Contents(h', x') == Contents(h, index) && |h'| == |h|
  {
  }

  lemma AppendKeeps(h: seq<Entry>, index: map<string, int>, e: Entry)
    requires Indexed(h, index) && e.request !in index
    ensures var x' := index[e.request := |h|];
        Indexed(h + [e], x') && Contents(h + [e], x') == Contents(h, index)[e.request := e]
  {
  }

  lemma RaiseKeeps(h: seq<Entry>, index: map<string, int>, r: string, priority: int)
    requires Indexed(h, index) && r in index
    ensures var i := index[r]; var h' := h[i := h[i].(priority := priority)];
            Indexed(h', index) && Contents(h', index) == Contents(h, index)[r := h[i].(priority := priority)]
  {
  }

  lemma DropLastKeeps(h: seq<Entry>, index: map<string, int>)
    requires Indexed(h, index) && |h| > 0
    ensures var n := |h| - 1; var r := h[n].request;
            Indexed(h[..n], index - {r}) && Contents(h[..n], index - {r}) == Contents(h, index) - {r}
  {
  }

  lemma RootIsBest(h: seq<Entry>, index: map<string, int>)
    requires Indexed(h, index) && |h| > 0 && HeapOrdered(h, |h|)
    ensures Best(Contents(h, index), h[0].request)
  {
    forall q | q in index ensures !Less(h[index[q]], h[0]) { RootFirst(h, index[q]); }
  }

  // ----- The class -----

  class Queue {
    var heap: seq<Entry>
    var dirty: map<string, int>
    var processing: set<string>
    var dirtyAfterProcessing: map<string, int>
    var shuttingDown: bool

    ghost predicate Valid()
      reads this
    {
      HeapOrdered(heap, |heap|) && Indexed(heap, dirty) && Separate(View())
    }

    ghost function View(): Model
      reads this
    {
      var waiting := if Indexed(heap, dirty) then Contents(heap, dirty) else map[];
      Model(waiting, processing, dirtyAfterProcessing, shuttingDown)
    }

    constructor ()
      ensures Valid() && View() == EmptyQueue && heap == []
    {
      heap, dirty, processing, dirtyAfterProcessing, shuttingDown := [], map[], {}, map[], false;
    }

    method Swap(i: int, j: int)
      requires Indexed(heap, dirty) && 0 <= i < |heap| && 0 <= j < |heap|
      modifies this`heap, this`dirty
      ensures heap == Swapped(old(heap), i, j) && Indexed(heap, dirty)
      ensures Contents(heap, dirty) == old(Contents(heap, dirty))
    {
      SwapKeeps(heap, dirty, i, j);
      dirty := dirty[heap[j].request := i][heap[i].request := j];
      heap := heap[i := heap[j]][j := heap[i]];
    }

    method Up(start: int)
      requires Indexed(heap, dirty) && 0 <= start < |heap| && Gap(heap, start, |heap|)
      requires AboveChildren(heap, start, |heap|)
      modifies this`heap, this`dirty
      ensures Indexed(heap, dirty) && Contents(heap, dirty) == old(Contents(heap, dirty)) && HeapOrdered(heap, |heap|)
      ensures heap == SiftUp(old(heap), start)
    {
      var j := start;
      while j > 0 && Less(heap[j], heap[Parent(j)])
        invariant 0 <= j < |heap| == |old(heap)| && Indexed(heap, dirty)
        invariant Contents(heap, dirty) == old(Contents(heap, dirty))
        invariant Gap(heap, j, |heap|) && AboveChildren(heap, j, |heap|)
        invariant SiftUp(heap, j) == SiftUp(old(heap), start)
      {
        SiftUpStep(heap, j);
        Swap(Parent(j), j);
        j := Parent(j);
      }
      GapCloses(heap, j, |heap|);
    }

    method Down(start: int, n: int) returns (moved: bool)
      requires Indexed(heap, dirty) && 0 <= start < |heap| && 0 <= n <= |heap| && Gap(heap, start, n)
      modifies this`heap, this`dirty
      ensures Indexed(heap, dirty) && Contents(heap, dirty) == old(Contents(heap, dirty)) && |heap| == |old(heap)|
      ensures forall k :: n <= k < |heap| && k != start ==> heap[k] == old(heap)[k]
      ensures start < n || heap == old(heap)
      ensures moved ==> HeapOrdered(heap, n)
      ensures !moved ==> heap == old(heap) && AboveChildren(heap, start, n)
      ensures heap == SiftDown(old(heap), start, n) && moved == Sinks(old(heap), start, n)
    {
      hide Indexed, Contents, Gap, FirstChild, Below, AboveChildren, HeapOrdered, Less, SiftDown, Sinks, Child;
      var i := start;
      while true
        invariant start <= i < |heap| == |old(heap)| && (i < n || i == start) && Indexed(heap, dirty)
        invariant Contents(heap, dirty) == old(Contents(heap, dirty))
        invariant forall k :: n <= k < |heap| && k != start ==> heap[k] == old(heap)[k]
        invariant Gap(heap, i, n) && (i == start ==> heap == old(heap)) && (i > start ==> start < n && Below(heap, i))
        invariant SiftDown(heap, i, n) == SiftDown(old(heap), start, n) && (i > start ==> Sinks(old(heap), start, n))
        decreases n - i
      {
        var j := 2 * i + 1;
        if j >= n {
          NoChild(heap, i, n);
          break;
        }
        if j + 1 < n && Less(heap[j + 1], heap[j]) {
          j := j + 1;
        }
        ChosenFirst(heap, i, j, n);
        if !Less(heap[j], heap[i]) {
          break;
        }
        SiftDownStep(heap, i, j, n);
        Swap(i, j);
        i := j;
      }
      moved := i > start;
      if moved {
        GapCloses(heap, i, n);
      }
    }

    /** heap.Fix: restores the order after the entry at `i` changed. */
    method Fix(i: int)
      requires Indexed(heap, dirty) && 0 <= i < |heap| && Gap(heap, i, |heap|)
      modifies this`heap, this`dirty
      ensures Indexed(heap, dirty) && Contents(heap, dirty) == old(Contents(heap, dirty)) && HeapOrdered(heap, |heap|)
      ensures heap == Refitted(old(heap), i)
    {
      var moved := Down(i, |heap|);
      if !moved {
        Up(i);
      }
    }

    /** heap.Push of a request that is not waiting. */
    method Push(e: Entry)
      requires HeapOrdered(heap, |heap|) && Indexed(heap, dirty) && e.request !in dirty
      modifies this`heap, this`dirty
      ensures HeapOrdered(heap, |heap|) && Indexed(heap, dirty)
      ensures Contents(heap, dirty) == old(Contents(heap, dirty))[e.request := e]
      ensures heap == Pushed(old(heap), e)
    {
      AppendLeavesGap(heap, e);
      AppendKeeps(heap, dirty, e);
      hide Indexed, Contents, HeapOrdered, Gap, AboveChildren;
      dirty := dirty[e.request := |heap|];
      heap := heap + [e];
      Up(|heap| - 1);
    }

    /** The root goes to the end and the rest is a heap again. */
    method RootToEnd()
      requires HeapOrdered(heap, |heap|) && Indexed(heap, dirty) && |heap| > 0
      modifies this`heap, this`dirty
      ensures Indexed(heap, dirty) && Contents(heap, dirty) == old(Contents(heap, dirty))
      ensures |heap| == |old(heap)| && heap[|heap| - 1] == old(heap[0]) && HeapOrdered(heap, |heap| - 1)
      ensures heap == SiftDown(Swapped(old(heap), 0, |heap| - 1), 0, |heap| - 1)
    {
      var n := |heap| - 1;
      RootSwapLeavesGap(heap);
      hide Indexed, Contents, Gap, HeapOrdered, AboveChildren;
      Swap(0, n);
      var moved := Down(0, n);
      if !moved {
        GapCloses(heap, 0, n);
      }
    }

    /** heap.Pop. */
    method Pop() returns (e: Entry)
      requires HeapOrdered(heap, |heap|) && Indexed(heap, dirty) && |heap| > 0
      modifies this`heap, this`dirty
      ensures HeapOrdered(heap, |heap|) && Indexed(heap, dirty) && Best(old(Contents(heap, dirty)), e.request)
      ensures Contents(heap, dirty) == old(Contents(heap, dirty)) - {e.request}
      ensures e == old(heap[0]) && heap == Popped(old(heap))
    {
      RootIsBest(heap, dirty);
      var n := |heap| - 1;
      hide Indexed, Contents, Best, HeapOrdered, SiftDown, Swapped;
      RootToEnd();
      PrefixHeap(heap, n);
      DropLastKeeps(heap, dirty);
      e := heap[n];
      heap := heap[..n];
      dirty := dirty - {e.request};
    }

    method Add(req: string, priority: int, now: int)
      requires Valid()
      modifies this
      ensures Valid() && View() == Step(old(View()), Added(req, priority, now))
      ensures var m := old(View());
              !m.closed && req !in m.processing && req !in m.waiting ==>
                  heap == Pushed(old(heap), Entry(req, priority, now))
    {
      StepKeepsSeparate(View(), Added(req, priority, now));
      if shuttingDown {
        return;
      }
      if req in processing {
        dirtyAfterProcessing := dirtyAfterProcessing[req := priority];
        return;
      }
      if req in dirty {
        var i := dirty[req];
        if priority > heap[i].priority {
          RaiseLeavesGap(heap, i, priority);
          RaiseKeeps(heap, dirty, req, priority);
          heap := heap[i := heap[i].(priority := priority)];
          Fix(i);
        }
        return;
      }
      Push(Entry(req, priority, now));
    }

    /** Returns once a request waits or the queue is shutting down. */
    method Get() returns (req: string, shutdown: bool)
      requires Valid() && (|heap| > 0 || shuttingDown)
      modifies this
      ensures Valid() && (shutdown <==> old(View()).waiting == map[])
      ensures if shutdown then View() == old(View())
              else Enabled(old(View()), Took(req)) && View() == Step(old(View()), Took(req))
                   && req == old(heap)[0].request && heap == Popped(old(heap))
    {
      if |heap| == 0 {
        return "", true;
      }
      assert heap[0].request in View().waiting;
      var e := Pop();
      processing := processing + {e.request};
      req, shutdown := e.request, false;
    }

    method Done(req: string, now: int)
      requires Valid()
      modifies this
      ensures Valid() && View() == Step(old(View()), Finished(req, now))
    {
      StepKeepsSeparate(View(), Finished(req, now));
      processing := processing - {req};
      if req in dirtyAfterProcessing {
        var priority := dirtyAfterProcessing[req];
        dirtyAfterProcessing := dirtyAfterProcessing - {req};
        Push(Entry(req, priority, now));
      }
    }

    method Close()
      requires Valid()
      modifies this
      ensures Valid() && View() == Step(old(View()), Event.ShutDown)
    {
      shuttingDown := true;
    }
  }
}
